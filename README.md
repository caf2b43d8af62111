# CyEx layout synthesis, modelled in Dafny

CyEx takes a network exported from Cytoscape as a VRNetz document (a JSON
object with a node table, a link table and network metadata) and computes
3-D layouts of the network. This project models the three files that do
that work.

- **`src/layout.py`** is modelled in `layout.dfy`, `params.dfy`,
  `normalize.dfy` and `sphere.dfy`, with properties in `layout_props.dfy`
  and `dispatch_props.dfy`.
  - It defines the `Layout` class: one named layout of a graph.
  - Its parameter properties read algorithm parameters from a variables
    dict, each with a fixed default.
  - `calculate_layout` dispatches on the algorithm name. It goes to the
    cartoGRAPHs family (tsne or umap, variant local, global, importance or
    functional), to the networkx spring layout or to kamada-kawai.
  - The link-based layout embeds only the nodes that have links. It then
    samples the degree-0 nodes on a unit sphere moved by minus the mean of
    that embedding.
  - The functional variants do the same with the nodes whose feature row
    has a non-zero entry.
  - `normalize_pos` sorts a position dict by key and scales each axis
    below `dim` into [0, 1].
- **`src/cyEx_project.py`** is modelled in `cyex_project.dfy`,
  `project.dfy`, `frames.dfy` and `graphs.dfy`.
  - It defines `CyExProject`: a network, the graph built from its tables
    (`gen_graph`), a list of layouts, and accessors for node data.
  - `calculate_layouts` computes and normalises every layout in turn. It
    then rewrites the Cytoscape columns (`handle_cy_layout`), writes one
    pair of columns per layout into the node table
    (`add_layouts_to_network`), colours the links and drops the suid
    columns.
- **`src/routes.py`** is modelled in `routes.dfy`.
  - `upload_vrnetz` is the upload route. It checks the uploaded file and
    parses it as JSON.
  - It decodes the layouts the form describes (`layout_<i>_name`,
    `layout_<i>_algo` and nine numeric fields per layout, for i = 1, 2, …
    until neither of the first two is present).
  - It derives the `stringify` tag from the network metadata and hands
    everything to the upload workflow.

## How it is modelled

- Positions are `real` vectors.
- A Python dict is a sequence of key/value pairs with distinct keys, kept
  in insertion order (`PosDicts`).
- A networkx graph is a node list with attribute maps and a set of
  undirected edges (`Graphs`).
- A pandas table is a list of rows, each with a cell in every column
  (`Frames`).
- The external libraries are function-valued fields of an `Engines` value
  (`Foreign`):
  - the networkx spring, kamada-kawai and random layouts;
  - the cartoGRAPHs embeddings;
  - the trimesh sphere sampler.

  The predicate `Conforms` says that they return one 3-vector per node and
  as many samples as were asked for. The results that need well-behaved
  libraries assume it.
- Raised exceptions are the `Fail` outcome of a `Step` or the `Err` case of
  a `Result`. Each is named after the Python exception it stands for, with
  these exceptions:
  - `ZeroDivision` is Python's ZeroDivisionError in `CyExProjects.ScaleByMax`,
    where the lambda divides Python numbers. In `Normalize.Normalized` it
    stands for the inf/nan that numpy produces without raising (see
    "## Left out").
  - Two classes are picked by convention, as the closest Python class:
    - the ValueError of `SphereSampling.SphereCenter` (see "## Left out");
    - the TypeError of `CyExProjects.CyPoints` for list cells holding
      non-numbers (see "## Left out").
  - The UnboundLocalError of an unknown cartoGRAPHs variant is the one
    Python raises: `function` is a local of `create_cartoGRAPH_layout`
    (layout.py:225-254) that no branch assigned when line 294 reads it.
- Stateful code stays imperative:
  - `Layouts.Layout` and `Projects.CyExProject` are classes whose methods
    assign their fields;
  - `Normalize.NormalizePos` works on a 2-D array, column by column;
  - `SphereSampling.SampleSphere` assigns into a dict node by node;
  - `Routes.DecodeLoop` is the upload loop.
  
  Each method is proved equal to a specification function. That
  function's properties are proved as lemmas.

### Behaviour of the code worth knowing

Each point below is a fact about the code, with the lemma that states it.
Where a docstring of the source states the purpose, it is cited.

- `calculate_layout` (layout.py:148-154) accepts any name. A name that is
  not a cartoGRAPHs name and not exactly `spring` or `kamada_kawai` does
  nothing (`DispatchProperties.UnknownNameIsNoOp`). The `normalize_pos`
  that follows then raises IndexError on the empty position dict
  (`DispatchProperties.UnknownNameThenNormalizeFails`).
- The functional variants cannot run on a `Layout` built by its
  constructor, although the docstring at layout.py:195 describes them:
  - the constructor stores the matrix it is given as `fm`;
  - `feature_matrix` stays `None`;
  - so line 212 raises AttributeError (`DispatchProperties.FreshFunctionalFails`).
- `normalize_pos` is documented to scale the positions "to be between 0 and
  1" (layout.py:340). It shifts each axis by `abs(min)`, not by `-min`. As a
  result:
  - each axis does end in [0, 1] and reaches 1 (`Normalize.NormalizedBounds`);
  - an axis whose values are all positive never reaches 0
    (`Normalize.NormalizedZero`);
  - normalising twice differs from normalising once
    (`Normalize.NormalizedNotIdempotent`);
  - a constant axis at a value of 0 or less has a zero divisor
    (`Normalize.AxisDivisorZero`).
- `cy_pos` coordinates that are all JSON integers make numpy build an
  integer array. The in-place division at layout.py:353 cannot store its
  float result there, so `handle_cy_layout` raises TypeError
  (`CyExProjects.CyPoints`, `CyExProjects.IntegerCyPosRaises`).
- The upload route reads the layout variable `opt_dis` (routes.py:51-61).
  The spring layout of layout.py reads `opt_dist` (layout.py:66-71). So the
  variables dicts the route hands on would give that spring layout no `k`
  (`Routes.UploadNoOptDist`). The upload workflow lays networks out with
  the `Layouter` of its own `layouter` module (workflows.py:15, 163-193),
  which is not part of this model, so what an upload's layouts actually
  run with is not claimed here. That no key the route reads is `opt_dist`
  is `Routes.OptDistNotRead`.
- The test `"cy_pos" and "cy_col" in nodes` (cyEx_project.py:195) only asks
  for `cy_col` (`CyExProjects.CyColWithoutCyPos`).
- The link colour list (cyEx_project.py:170) has one entry per graph edge,
  not per link row. Repeated or reversed links collapse into one edge, so
  the assignment then fails (`CyExProjects.LinksStepFacts`,
  `Frames.ReversedLinkCollapses`).
- A link that names a node the node table lacks adds that node to the
  graph, with no attributes (`Frames.GenGraphLinkOnlyNodes`).
- The docstrings at layout.py:160, :301 and :472 place the isolated nodes
  on a sphere "around the center of the graph". The code moves the sphere
  by minus the layout's mean (layout.py:379-381). It therefore sits at the
  mirror image of the layout's centre, not around it
  (`SphereSampling.SphereCenterConstant`).

## Model

| member | source | states |
|---|---|---|
| Common.Abs | src/layout.py:352 | the result is non-negative and is `x` or `-x` |
| Common.Trunc | src/routes.py:63-65 | `int()` of a float truncates toward zero: the result is within 1 of `x`, below it for positive `x` and above it for negative `x` |
| Common.ToInt | src/layout.py:73-76 | `int()` keeps an int and truncates a float |
| Common.Contains | src/layout.py:149 | `sub in s` holds exactly when `sub` occurs in `s` at some index |
| LayoutParams.Get | src/layout.py:67 | `variables.get(key, default)`: the stored value when the key is present, the default otherwise |
| LayoutParams.OptDist | src/layout.py:65-71 | the optimal distance is set exactly when a positive `opt_dist` is supplied, and then holds that value; otherwise it is None |
| LayoutParams.SpringVariables | src/layout.py:120-127 | the spring keyword dict has exactly the keys `k`, `iterations`, `threshold` |
| LayoutParams.TsneVariables | src/layout.py:129-137 | the tsne keyword dict has exactly the keys `prplxty`, `density`, `l_rate`, `steps` |
| LayoutParams.UmapVariables | src/layout.py:139-146 | the umap keyword dict has exactly the keys `n_neighbors`, `spread`, `min_dist` |
| LayoutParams.DefaultVariables | src/layout.py:65-146 | an empty variables dict gives every default: k None, 50 iterations, threshold 0.0001, prplxty 0.5, density 12, l_rate 200, 250 steps, 10 neighbours, spread 1.0, min_dist 0.1 |
| LayoutParams.SuppliedVariables | src/layout.py:73-118 | a supplied value overrides its default, through `float()` for the float parameters and `int()` (truncation) for the counts |
| PosDicts.Keys | src/layout.py:354 | the key list of a dict has one entry per item, in order |
| PosDicts.Values | src/layout.py:330 | `list(d.values())` has one entry per item, in order |
| PosDicts.Zip | src/layout.py:354 | `dict(zip(ks, vs))` stops at the shorter list and pairs entry i with entry i |
| PosDicts.ZipIsDict | src/layout.py:354 | zipping distinct keys gives a dict |
| PosDicts.ZipKeys | src/layout.py:354 | zipping distinct keys with as many values gives exactly those keys, in order |
| PosDicts.ZipKeysValues | src/layout.py:354 | zipping a dict's keys with its values gives the dict back |
| PosDicts.IndexOf | src/layout.py:331 | the index found is at most the length; below the length it holds the key; no earlier item has the key |
| PosDicts.Assign | src/layout.py:485 | `d[k] = v` replaces the value of a present key in place and appends a new key |
| PosDicts.UpdateDisjoint | src/layout.py:331 | `layout.update(e)` with keys that are all new appends `e`'s items in their order |
| PosDicts.AssignAbsent | src/layout.py:485 | assigning an absent key appends the item |
| PosDicts.IndexOfAbsent | src/layout.py:331 | a key is found before the end exactly when it is present |
| PosDicts.AssignKeys | src/layout.py:485 | assignment keeps a dict a dict, adds the key and keeps the others |
| PosDicts.UpdateSameKeys | src/layout.py:331 | an update with the same keys in the same order replaces every value |
| PosDicts.UpdateKeys | src/layout.py:331 | `d.update(e)` keeps a dict, and its keys are those of both |
| PosDicts.DictSize | src/layout.py:59-62 | a dict has as many items as distinct keys |
| PosDicts.Insert | src/layout.py:349 | inserting into a key-sorted list keeps it sorted and adds exactly that item |
| PosDicts.SortByKey | src/layout.py:349 | `sorted(layout.items())` by key is sorted and is a permutation of the items |
| PosDicts.SortedSameItems | src/layout.py:349 | sorting neither adds nor drops an item |
| PosDicts.SortByKeyIsDict | src/layout.py:349 | sorting a dict's items keeps a dict with the same keys, each with its value, in strictly increasing order |
| Graphs.DistinctCard | src/layout.py:329 | a list without repeats is as long as its set, so `len(no_links)` counts the nodes |
| Graphs.NoNodes | src/layout.py:329 | a graph's node list is empty exactly when it has no nodes |
| Graphs.Filter | src/layout.py:315-318 | the kept entries are exactly the entries of the list that lie in `keep`; the result is no longer than the list and has no repeats when the list has none |
| Graphs.SubgraphFacts | src/layout.py:315-318 | `G.subgraph(keep)` is a valid graph on the kept nodes with exactly the edges among them |
| Graphs.EnsureNodeSet | src/cyEx_project.py:231-233 | an endpoint that `add_edge` meets becomes a node |
| Graphs.EnsureNodeFacts | src/cyEx_project.py:231-233 | adding a node keeps the graph valid and keeps the earlier nodes first, with their attributes |
| Graphs.AddEdge | src/cyEx_project.py:231-233 | `add_edge(u, v)` adds exactly the unordered edge {u, v} to the edge set (its effect on the nodes is stated by `AddEdgeNodeSet` and `AddEdgeKeeps`) |
| Graphs.AddEdgeValid | src/cyEx_project.py:231-233 | adding an edge keeps the graph valid |
| Graphs.AddEdgeNodeSet | src/cyEx_project.py:231-233 | the endpoints of an added edge are nodes, and no other node is added |
| Graphs.AddEdgeKeeps | src/cyEx_project.py:231-233 | new endpoints go after the existing nodes, which keep their attributes |
| Graphs.PairCard | src/cyEx_project.py:231-233 | an edge has one endpoint (a self-loop) or two |
| Frames.Cells | src/cyEx_project.py:196 | `df[c]` lists row i's cell at position i |
| Frames.SetSeries | src/cyEx_project.py:153-154 | a Series written into a column is aligned on the index: row i gets value i, rows past the end get NaN, and other columns are unchanged |
| Frames.SetList | src/cyEx_project.py:170 | a list written into a column needs one value per row and then sets each row's cell |
| Frames.DropColumn | src/cyEx_project.py:175 | dropping a present column removes it from every row and keeps the other cells |
| Frames.LinkPairs | src/cyEx_project.py:232 | one endpoint pair per link row, when both columns are present |
| Frames.Range | src/cyEx_project.py:230 | the ids of an n-row table are 0 .. n-1 in order |
| Frames.AddEdgesEdges | src/cyEx_project.py:231-233 | `add_edges_from(pairs)` adds exactly the pairs' edges |
| Frames.AddEdgesNodeSet | src/cyEx_project.py:231-233 | `add_edges_from(pairs)` adds exactly the pairs' endpoints as nodes |
| Frames.AddEdgesKeeps | src/cyEx_project.py:231-233 | adding edges keeps the graph valid and keeps its existing nodes first, with their attributes |
| Frames.AddEdgesNewAttrs | src/cyEx_project.py:231-233 | a node that only a link names gets an empty attribute dict |
| Frames.NodeTableValid | src/cyEx_project.py:230 | the node table alone gives a valid graph whose nodes are exactly the row ids |
| Frames.GenGraphNodes | src/cyEx_project.py:218-234 | `gen_graph` builds a valid graph whose first nodes are the table's ids in index order, each with its row's non-missing cells |
| Frames.GenGraphLinkOnlyNodes | src/cyEx_project.py:218-234 | link endpoints that the node table lacks become nodes without attributes |
| Frames.GenGraphNodeSet | src/cyEx_project.py:218-234 | the graph's nodes are exactly the table ids and the link endpoints |
| Frames.GenGraphEdges | src/cyEx_project.py:218-234 | the graph's edges are exactly the undirected edges the links name, so there are at most as many as links |
| Frames.GenGraph | src/cyEx_project.py:219-234 | `gen_graph` succeeds exactly when the link table has both endpoint columns, and otherwise raises KeyError for the first one missing |
| Frames.PairEdgesCard | src/cyEx_project.py:231-233 | there are at most as many edges as links |
| Frames.ReversedLinkCollapses | src/cyEx_project.py:231-233 | a link repeated in reverse adds no edge |
| Normalize.Column | src/layout.py:352 | `pos[:, i]` has one entry per vector, entry j being coordinate i of vector j |
| Normalize.SeqMin | src/layout.py:352 | `min` of a column is one of its values and at most every value |
| Normalize.SeqMax | src/layout.py:353 | `max` of a column is one of its values and at least every value |
| Normalize.Shift | src/layout.py:352 | each shifted value is the value plus the shift |
| Normalize.ScaleAxis | src/layout.py:352-353 | a scaled axis has one entry per value of the column (its values are stated by `ScaleAxisBounds` and `ScaleAxisZero`) |
| Normalize.NormalizedValues | src/layout.py:351-353 | the scaled vectors keep their number and their lengths |
| Normalize.ArrayColumn | src/layout.py:352 | an array column has one entry per row |
| Normalize.ColumnMin | src/layout.py:352 | computes `min(pos[:, i])` of the array |
| Normalize.ColumnMax | src/layout.py:353 | computes `max(pos[:, i])` of the array |
| Normalize.AddToColumn | src/layout.py:352 | `pos[:, i] += x` adds `x` to column i and leaves every other cell |
| Normalize.DivideColumn | src/layout.py:353 | `pos[:, i] /= x` divides column i by `x` and leaves every other cell |
| Normalize.ToArray | src/layout.py:350 | `np.array(values)` of a rectangular list holds vector j as row j |
| Normalize.Rows | src/layout.py:354 | `list(pos)` gives row j of the array as vector j |
| Normalize.ScaleColumn | src/layout.py:352-353 | one iteration succeeds exactly when the axis divisor is non-zero, then holds the scaled axis, and leaves the other columns |
| Normalize.NormalizePos | src/layout.py:336-355 | the array-based run of `normalize_pos` returns exactly the specified normalisation, or its error |
| Normalize.ScaleAxes | src/layout.py:351-353 | the loop completes exactly when every axis below `dim` has a non-zero divisor, then holds each such axis scaled and the other coordinates unchanged |
| Normalize.RowsNormalized | src/layout.py:351-354 | the rows read back from the scaled array are the normalised vectors |
| Normalize.ShiftedWithinDivisor | src/layout.py:352-353 | every shifted value is non-negative and at most the divisor, which is one of them |
| Normalize.AxisDivisorZero | src/layout.py:352-353 | the divisor is zero exactly when the axis is constant at a value of 0 or less |
| Normalize.ScaleAxisBounds | src/layout.py:352-353 | a scaled axis lies in [0, 1] and reaches 1 |
| Normalize.ScaleAxisZero | src/layout.py:352-353 | a scaled axis reaches 0 exactly when its minimum was 0 or less |
| Normalize.ScaleAxisFixpoint | src/layout.py:352-353 | an axis with minimum 0 and maximum 1 is left as it is |
| Normalize.NormalizedShape | src/layout.py:349-355 | a successful result pairs the key-sorted keys with the scaled vectors |
| Normalize.NormalizedColumns | src/layout.py:349-355 | each axis below `dim` of the result is that axis of the sorted input, scaled; other coordinates are copied |
| Normalize.NormalizedKeys | src/layout.py:349-355 | the result has the input's keys, each once, in increasing order |
| Normalize.ZipSameKeys | src/layout.py:354 | pairing the sorted keys with as many new vectors keeps the key set and order |
| Normalize.NormalizedBounds | src/layout.py:336-355 | every axis below `dim` of a result lies in [0, 1] and reaches 1 |
| Normalize.NormalizedZero | src/layout.py:336-355 | an axis below `dim` of the result reaches 0 exactly when some input vector was 0 or less there |
| Normalize.ColumnNonPositive | src/layout.py:352 | the least value of an axis is 0 or less exactly when some item's value there is |
| Normalize.NormalizedCases | src/layout.py:349-355 | the outcomes by shape: IndexError for an empty layout over at least one axis, `{}` for an empty layout over none, ValueError for vectors of unequal length, IndexError for vectors shorter than `dim`, a zero division for a zero divisor, the scaled dict otherwise |
| Normalize.Normalized | src/layout.py:336-355 | a result has one item per input item; the only errors are IndexError, ValueError and the zero division; an empty layout succeeds only over zero axes |
| Normalize.NormalizedFixpoint | src/layout.py:336-355 | a layout whose axes already span [0, 1] comes back unchanged apart from the sort |
| Normalize.ScaleTwoPositive | src/layout.py:352-353 | a positive axis `a < b` is shifted by `a` and divided by `a + b` |
| Normalize.NormalizedPair | src/layout.py:336-355 | two nodes on one positive axis `a < b` normalise to `2a/(a+b)` and 1 |
| Normalize.NormalizedNotIdempotent | src/layout.py:336-355 | normalising twice differs from once: `[1, 2]` becomes `[2/3, 1]`, then `[4/5, 1]` |
| SphereSampling.SphereCenter | src/layout.py:379-381 | the translation is a 3-vector; it fails exactly for a non-empty layout whose points are not all 3-vectors |
| SphereSampling.SampleSpherePcd | src/layout.py:358-392 | zero points give an empty sample, and an empty layout never fails; the only failure is a ValueError for points asked for around a non-empty layout (which `SphereCenter` pins to one that is not a list of 3-vectors) |
| SphereSampling.SampleSphere | src/layout.py:469-486 | the node-by-node dict assignment computes exactly `SphereLayout` |
| SphereSampling.SphereLayoutKeys | src/layout.py:469-486 | a successful sample has exactly the graph's nodes as keys, in order, node i holding point i |
| SphereSampling.SphereLayoutEmpty | src/layout.py:374-375 | zero nodes give an empty dict, whatever the layout |
| SphereSampling.SphereLayoutSucceeds | src/layout.py:469-486 | with well-behaved libraries sampling succeeds for any layout of 3-vectors, one point per node |
| SphereSampling.SphereCenterConstant | src/layout.py:379-381 | a layout whose points all sit at `p` gets a sphere centred at `-p` |
| Layouts.WithFeatures | src/layout.py:215-217 | the filtered matrix holds exactly the rows with a non-zero feature |
| Layouts.Layout.constructor | src/layout.py:23-54 | a new layout has the given name, algorithm, variables, graph, `fm` and dimension, no positions, no random layout and no feature matrix |
| Layouts.Layout.SetRandomLayout | src/layout.py:52 | setting `random_layout` changes only that flag |
| Layouts.Layout.Size | src/layout.py:56-62 | `len(layout)` is the number of positioned nodes |
| Layouts.Layout.CreateRandomLayout | src/layout.py:186-190 | the random layout of the given graph, or of the layout's graph for a missing or empty one, stored in `pos` |
| Layouts.Layout.LinkBasedLayout | src/layout.py:296-333 | the new state and outcome are those of the link-based step; absent variables are an empty dict |
| Layouts.Layout.CreateSpringLayout | src/layout.py:159-170 | the optional random layout, then the link-based spring layout with the spring variables |
| Layouts.Layout.CreateKamadaKawaiLayout | src/layout.py:172-184 | the random layout when asked for, else the link-based kamada-kawai layout |
| Layouts.Layout.FunctionalLayout | src/layout.py:230-245 | the functional step: embed the feature graph (or place it at random), sample the sphere graph, merge, store |
| Layouts.Layout.FamilyLayout | src/layout.py:222-271 | the variant dispatch: local, global and importance run link-based, functional runs on features, and anything else leaves `function` unbound |
| Layouts.Layout.CreateCartoGraphLayout | src/layout.py:192-294 | the new state and outcome are those of the cartoGRAPHs dispatch, including the feature split and the NotImplementedError branches |
| Layouts.Layout.CalculateLayout | src/layout.py:148-154 | the name dispatch: cartoGRAPHs when the name contains the marker, spring or kamada-kawai on an exact match, nothing otherwise |
| Layouts.LinkBasedStep | src/layout.py:296-333 | the link-based layout changes only `pos`, and raises AttributeError without a graph |
| Layouts.FunctionalStep | src/layout.py:230-245 | the functional step changes only `pos`, and without a feature matrix returns without raising (the `return ValueError(...)` of line 232) |
| Layouts.CartoGraphFamilyStep | src/layout.py:222-294 | the family dispatch changes only `pos` |
| Layouts.CartoGraphStep | src/layout.py:192-294 | `create_cartoGRAPH_layout` changes only `pos` and, for a functional name, `feature_matrix`; a functional name without a matrix raises AttributeError |
| Layouts.CalculateStep | src/layout.py:148-154 | `calculate_layout` changes only `pos` and `feature_matrix`, the latter only for a functional name |
| Layouts.Layout.NormalizePos | src/layout.py:156-157 | `pos` becomes its normalisation with the layout's `dim`; a failure raises and keeps the state |
| LayoutProperties.LinkPartition | src/layout.py:315-318 | the isolated and linked subgraphs are disjoint, valid, together hold every node, and every edge stays with the linked one |
| LayoutProperties.PartitionEdges | src/layout.py:315-318 | the linked subgraph keeps every edge and the isolated one has none |
| LayoutProperties.PartitionNodes | src/layout.py:315-318 | the isolated subgraph's nodes are the degree-0 nodes and the linked one's are all the others |
| LayoutProperties.EdgesAvoidIsolated | src/layout.py:315 | every edge lies among the linked nodes |
| LayoutProperties.SubgraphAll | src/layout.py:316-318 | the subgraph on every node is the graph itself |
| LayoutProperties.FilterAll | src/layout.py:316-318 | filtering by a set that holds every entry keeps the list |
| LayoutProperties.LinkedPosKeys | src/layout.py:324-327 | the linked nodes' positions form a dict of 3-vectors covering the linked subgraph and lying within the graph |
| LayoutProperties.ZipPoints | src/layout.py:324-327 | a conforming embedding zipped with distinct nodes is a dict of 3-vectors with exactly those keys |
| LayoutProperties.LinkBasedCovers | src/layout.py:296-333 | with well-behaved libraries `link_based_layout` completes, changes only `pos`, and leaves one position per node of the graph |
| LayoutProperties.LinkBasedWithSphere | src/layout.py:329-333 | with isolated nodes the merged layout covers exactly the graph's nodes |
| LayoutProperties.SphereParts | src/layout.py:324-331 | the two merged halves: the linked positions within the graph and the sphere positions on exactly the isolated nodes |
| LayoutProperties.LinkBasedUnfold | src/layout.py:324-333 | without isolated nodes `pos` is the embedding; with them it is the embedding updated by the sphere points |
| LayoutProperties.MergeCovers | src/layout.py:331 | merging sphere positions of the isolated nodes into the linked ones covers the graph |
| LayoutProperties.LinkBasedWithoutSphere | src/layout.py:329-333 | without isolated nodes the layout covers exactly the graph's nodes |
| LayoutProperties.LinkBasedEmbedsLinked | src/layout.py:324-333 | without the random layout the linked nodes come first, holding the algorithm's output node by node, then the isolated nodes |
| LayoutProperties.EmbedsLinkedWithSphere | src/layout.py:327-331 | with isolated nodes the layout is the linked embedding followed by the isolated nodes' points |
| LayoutProperties.SphereAppended | src/layout.py:330-331 | sphere positions of nodes the layout lacks are appended after it |
| LayoutProperties.LinkBasedNoIsolated | src/layout.py:315-333 | a graph without isolated nodes gets exactly the algorithm's output for the whole graph |
| DispatchProperties.FirstCharLacks | src/layout.py:149 | a string without the marker's first character does not contain the marker |
| DispatchProperties.ExactNamesReachNetworkx | src/layout.py:148-154 | `spring` and `kamada_kawai` reach their own networkx layouts |
| DispatchProperties.UnknownNameIsNoOp | src/layout.py:148-154 | any name that is not a cartoGRAPHs name, `spring` or `kamada_kawai` changes nothing and raises nothing |
| DispatchProperties.UnknownNameThenNormalizeFails | src/layout.py:148-157 | on a fresh layout over at least one axis, such a name is followed by a `normalize_pos` that raises IndexError on the empty positions |
| DispatchProperties.ReservedNamesNotImplemented | src/layout.py:273-282 | topographic and geodesic names outside the tsne and umap families raise NotImplementedError |
| DispatchProperties.UnknownVariantUnbound | src/layout.py:222-294 | a tsne or umap name with no known variant, or a name of no family, ends with `function` unbound and `pos` untouched |
| DispatchProperties.FreshFunctionalFails | src/layout.py:54 | a freshly built layout raises AttributeError for every functional name |
| DispatchProperties.FeatureLabels | src/layout.py:212-217 | the rows with and without features have disjoint labels that together are all the labels |
| DispatchProperties.FeatureSplitNodes | src/layout.py:219-220 | the feature and sphere graphs are disjoint, valid, and together hold every node that has a row |
| DispatchProperties.FunctionalUnion | src/layout.py:236-244 | the feature graph's nodes by the embedding in order, then the sphere graph's nodes: one entry per node of the two, nothing else changed |
| DispatchProperties.ConcatDict | src/layout.py:243 | two dicts with disjoint keys concatenate into a dict with both key sets |
| DispatchProperties.FunctionalDispatch | src/layout.py:211-245 | a functional name with a matrix and a graph runs the functional step on the filtered matrix and the split |
| DispatchProperties.FunctionalCoversGraph | src/layout.py:211-271 | with one matrix row per graph node, a functional variant positions every node exactly once |
| DispatchProperties.KamadaKawaiRandomAll | src/layout.py:180-182 | with the random layout, kamada-kawai places the whole graph at random and samples no sphere |
| DispatchProperties.RandomEmptySubgraphFallsBack | src/layout.py:186-190 | with no links, the random layout of the empty linked graph falls back to the whole graph, and the sphere points then replace every position |
| DispatchProperties.AllIsolated | src/layout.py:315-318 | a graph without edges is its own isolated part and has an empty linked part |
| CyExProjects.SizeOf | src/cyEx_project.py:50-55 | `size` is (nodes, edges) of the graph, or None without one |
| CyExProjects.StringNetworkNames | src/cyEx_project.py:65-73 | `is_string_network` holds exactly when `database` is `string` or `stitch`, and never without a `database` entry |
| CyExProjects.NodeCount | src/cyEx_project.py:57-59 | `n` is the node count, and raises TypeError without a graph |
| CyExProjects.LinkCount | src/cyEx_project.py:61-63 | `l` is the edge count, and raises TypeError without a graph |
| CyExProjects.SetNodeDataStep | src/cyEx_project.py:124-131 | `set_node_data` succeeds exactly when there is a graph that has the node, and keeps its nodes and edges |
| CyExProjects.GetNodeDataStep | src/cyEx_project.py:110-122 | `get_node_data` succeeds exactly when there is a graph that has the node (what it returns and adds is stated by `SetThenGet` and `GetCreatesEmpty`) |
| CyExProjects.SetThenGet | src/cyEx_project.py:110-131 | data set on a node is what `get_node_data` then returns, with no further change |
| CyExProjects.GetCreatesEmpty | src/cyEx_project.py:119-120 | a node without data gets an empty dict, and only that changes |
| CyExProjects.SetNodeDataValid | src/cyEx_project.py:131 | setting data keeps the graph valid and touches one attribute of one node |
| CyExProjects.FirstTwo | src/cyEx_project.py:149 | `pos[:, :2]` of a row is its first two coordinates |
| CyExProjects.PosColumn | src/cyEx_project.py:154 | the `<name>_pos` values are the layout's vectors in order |
| CyExProjects.FlatColumn | src/cyEx_project.py:149-153 | the `<name>2d_pos` values are x, y and a zero z of each vector |
| CyExProjects.ColumnNamesDiffer | src/cyEx_project.py:153-154 | the two column names of a layout differ |
| CyExProjects.LayoutColumnsFacts | src/cyEx_project.py:147-154 | row i of `<name>_pos` holds vector i and row i of `<name>2d_pos` its flat form; rows past the layout get NaN, and other columns are unchanged |
| CyExProjects.LayoutColumnsFails | src/cyEx_project.py:148-149 | writing a layout fails exactly for an empty or ragged layout |
| CyExProjects.LayoutColumns | src/cyEx_project.py:147-154 | a written layout adds exactly its two columns and keeps the rows; an empty layout raises IndexError and a ragged one ValueError |
| CyExProjects.SetSeriesTwice | src/cyEx_project.py:153-154 | writing a column twice keeps the second write |
| CyExProjects.SetSeriesCommute | src/cyEx_project.py:153-154 | writes to two different columns commute |
| CyExProjects.SameNameOverwrites | src/cyEx_project.py:147-154 | a later layout of the same name overwrites an earlier one's columns |
| CyExProjects.SortedIndexKeys | src/cyEx_project.py:148-154 | keys that ascend strictly and are exactly 0 .. n-1 put node i's position in row i |
| CyExProjects.ExtractCy | src/cyEx_project.py:184-191 | on success the row gains the columns `cy_pos`, `cy_col` and `size` (their values are stated by `ExtractCyCopies`) |
| CyExProjects.ExtractCyRows | src/cyEx_project.py:193 | `extract_cy` row by row, the first failing row raising |
| CyExProjects.Points | src/cyEx_project.py:196-197 | the `cy_pos` cells as vectors, one per row |
| CyExProjects.CyPoints | src/cyEx_project.py:195-197 | reading `cy_pos` as a dict by row index and normalising it over two axes raises KeyError without the column and TypeError for an integer array, and succeeds only when every cell is a list of numbers that is not an integer array (the errors by shape are `CyPointsErrors`, the values `CyPosFacts`) |
| CyExProjects.CyPointsErrors | src/cyEx_project.py:195-197 | with numpy's shapes: IndexError when no cell of a non-empty table is a list, ValueError when lists are mixed with other cells or differ in length, and TypeError only for equal-length lists (holding a non-number, or an integer array) |
| CyExProjects.IntegerCyPosRaises | src/cyEx_project.py:195-197 | a table whose `cy_pos` cells are `[0, 1]` and `[2, 3]` raises TypeError |
| CyExProjects.MissingCyPosRaises | src/cyEx_project.py:195-197 | a row with a point beside a row whose `cy_pos` is NaN makes numpy raise ValueError for the inhomogeneous array |
| CyExProjects.PadColumn | src/cyEx_project.py:198-199 | each row's vector gets a zero z appended |
| CyExProjects.Sizes | src/cyEx_project.py:206 | the `size` cells as Python sees them, one per row: ints and floats as numbers, bools as 0 and 1, a missing cell as NaN |
| CyExProjects.PyMax | src/cyEx_project.py:206 | `max` keeps the first item unless a later one is greater: a leading NaN gives NaN; otherwise the result is a number, one of the items, and at least every number among them |
| CyExProjects.ScaledSizes | src/cyEx_project.py:206-209 | a success gives one value per row (the values are stated by `ScaleByMaxFacts`); a cell that is not a number, a bool or missing raises TypeError |
| CyExProjects.ScaleByMax | src/cyEx_project.py:206-209 | fails exactly when there is no size (ValueError from `max`) or the maximum is the number 0 (ZeroDivisionError); a success gives one value per row |
| CyExProjects.FloatColumn | src/cyEx_project.py:207-209 | the scaled sizes written back as float cells, NaN as a missing cell, one per row |
| CyExProjects.ColoredColumn | src/cyEx_project.py:201-214 | passes exactly when `extract_color` passes on every row, and then holds each row's colour list extended by the alpha of its size; otherwise it raises the error of the first row that fails |
| CyExProjects.ExtractCyCopies | src/cyEx_project.py:184-193 | a row whose `layouts` cell starts with a dict holding `p`, `c`, `s` gains those as `cy_pos`, `cy_col`, `size` and keeps its other cells; any other cell raises |
| CyExProjects.HandleCyLayoutStep | src/cyEx_project.py:178-216 | `handle_cy_layout` keeps the number of rows (or leaves the original table after a failure), and leaves a table with neither the legacy column nor `cy_col` alone |
| CyExProjects.CyColWithoutCyPos | src/cyEx_project.py:195-196 | a table with `cy_col` but no `cy_pos` fails at `nodes["cy_pos"]` and is left as it was |
| CyExProjects.HandleCyLayoutUpdates | src/cyEx_project.py:178-216 | a successful step updates the network's own table, or the extracted copy for the legacy format |
| CyExProjects.LegacyFailureKeepsTable | src/cyEx_project.py:182-216 | a legacy table that fails anywhere leaves the network's table as it was |
| CyExProjects.ScaleByMaxFacts | src/cyEx_project.py:206-209 | a NaN size stays NaN and a leading NaN makes every size NaN; otherwise each number becomes itself over the maximum, the largest becomes 1, and sizes that are not negative end in [0, 1] |
| CyExProjects.DivideTimes | src/cyEx_project.py:208 | a number over a non-zero maximum, times that maximum, is the number again; the maximum over itself is 1 |
| CyExProjects.NaNSizeRaises | src/cyEx_project.py:201-214 | sizes 2 and missing scale to 1 and NaN, the size column is written as 1.0 and NaN, and the colour column then raises ValueError from `int(255 * nan)` |
| CyExProjects.TrailingNaNSize | src/cyEx_project.py:206-209 | a NaN after the number 2 leaves the maximum at 2: the sizes become 1 and NaN |
| CyExProjects.LeadingNaNSize | src/cyEx_project.py:206-209 | a NaN before the number 2 is the maximum: both sizes become NaN |
| CyExProjects.BoolSizesScale | src/cyEx_project.py:206-209 | sizes `True` and `False` scale to 1 and 0 |
| CyExProjects.AlphaFacts | src/cyEx_project.py:203 | the alpha is 255 at size 1 and 127 at size 0.5 (truncation), and lies in 0 .. 255 for every size in [0, 1] |
| CyExProjects.CyUpdateFacts | src/cyEx_project.py:195-214 | after a successful step the sizes written are `ScaleByMax` of the table's own sizes (so, by `ScaleByMaxFacts`, each its size over the largest), every one a number; each row's colour ends with the alpha of its size, and `cy_pos` is the padded normalised vector |
| CyExProjects.SizesBeforeWrite | src/cyEx_project.py:198-206 | the `cy_pos` write leaves `size` alone, so a successful scaling scales the table's own sizes |
| CyExProjects.CyUpdateWrites | src/cyEx_project.py:195-214 | a successful step has written `cy_pos`, then `size`, then `cy_col` |
| CyExProjects.WrittenRows | src/cyEx_project.py:195-214 | the three columns written, row by row, with every other cell kept |
| CyExProjects.ColoredRows | src/cyEx_project.py:201-214 | when the colour column passes, every size is a number, every colour a list, and each row gets its colour extended by that size's alpha |
| CyExProjects.ColoursBeforeWrite | src/cyEx_project.py:198-211 | the `cy_pos` and `size` writes leave `cy_col` alone |
| CyExProjects.CyPosFacts | src/cyEx_project.py:196-199 | the normalised `cy_pos` vectors number one per row, and each has x and y in [0, 1] |
| CyExProjects.DropIfPresent | src/cyEx_project.py:173-175 | each listed column that is present is dropped, and the others are kept |
| CyExProjects.LinksStepFacts | src/cyEx_project.py:170-176 | with as many edges as link rows, every row gets the uniform colour, the suid columns go and the other columns stay; otherwise the step fails |
| CyExProjects.LinksStep | src/cyEx_project.py:170-176 | without a graph the links raise TypeError, with one only ValueError; a result keeps the rows and has the `all_col` column |
| CyExProjects.DroppedColumns | src/cyEx_project.py:172-175 | the columns the link step drops are exactly `s_suid` and `e_suid` |
| Projects.Progress | src/cyEx_project.py:159-161 | the loop over the layouts gives one state per layout (what those states are is stated by `ProgressPasses`, `ProgressStops` and `ProgressFails`) |
| Projects.ProgressKeeps | src/cyEx_project.py:159-161 | the layouts not yet reached keep their state |
| Projects.CalcIsPass | src/cyEx_project.py:159-161 | the pass of the loop is compute, then normalise |
| Projects.ProgressPasses | src/cyEx_project.py:159-161 | the loop completes exactly when every pass does, each layout then holding its own pass's state |
| Projects.ProgressStops | src/cyEx_project.py:159-161 | once the loop has raised, later passes change nothing |
| Projects.ProgressFails | src/cyEx_project.py:159-161 | a failing loop names the first failing layout: those before it completed, it raised the loop's error, those after are untouched |
| Projects.PipelineFacts | src/cyEx_project.py:157-176 | the graph and metadata never change; the run completes exactly when every stage does, and then holds the new layouts and tables |
| Projects.Pipeline | src/cyEx_project.py:157-176 | the layouts take the loop's states and the graph and metadata stay; a completed run needs every stage to complete; a failing loop leaves the tables |
| Projects.TablesStep | src/cyEx_project.py:162-176 | the table stages keep the layouts, graph and metadata; they complete exactly when the Cytoscape columns, the layout columns and the links do, and only then is the link table replaced |
| Projects.CalculateLayoutsPasses | src/cyEx_project.py:157-176 | a completed run computed every layout, added their columns to the Cytoscape-updated node table and replaced the link table |
| Projects.FailingLayoutKeepsTables | src/cyEx_project.py:159-163 | when a layout raises, both tables stay as they were |
| Projects.StatesOf | src/cyEx_project.py:159 | the states of the layout objects, one per object, in order |
| Projects.AddLayoutFails | src/cyEx_project.py:75-81 | `add_layout` raises only when the project has no graph and the link table lacks an endpoint column |
| Projects.CyExProject.constructor | src/cyEx_project.py:18-41 | a new project holds the given name, network, graph and overwrite flag, and no layouts |
| Projects.CyExProject.Create | src/cyEx_project.py:32-35 | a project is created exactly when `gen_graph` of the node and link tables succeeds, and otherwise raises its KeyError; the new project holds the given name, network and overwrite flag, the graph `gen_graph` built and no layouts |
| Projects.CyExProject.AddLayout | src/cyEx_project.py:75-81 | appends one new layout built with the project's graph; nothing else changes |
| Projects.CyExProject.GetNodeData | src/cyEx_project.py:110-122 | returns the node's data and updates the graph as `GetNodeDataStep` says |
| Projects.CyExProject.SetNodeData | src/cyEx_project.py:124-131 | updates the graph as `SetNodeDataStep` says |
| Projects.CyExProject.AddLayoutsToNetwork | src/cyEx_project.py:133-155 | writes each given layout's columns (the project's own when none are given) into the node table, stopping at the first failure |
| Projects.CyExProject.HandleCyLayout | src/cyEx_project.py:178-216 | sets the node table as `HandleCyLayoutStep` says |
| Projects.CyExProject.HandleLinks | src/cyEx_project.py:170-176 | the link table as `LinksStep` says: colour column, then the suid drops |
| Projects.CyExProject.UpdateTables | src/cyEx_project.py:162-176 | the Cytoscape columns, the layout columns, then the links, each stage only after the previous one completed |
| Projects.CyExProject.CalculateLayouts | src/cyEx_project.py:157-176 | the layouts' states and the tables become those of `CalculateLayoutsStep` |
| Projects.RunLayout | src/cyEx_project.py:160-161 | one layout takes its pass and every other layout keeps its state |
| Projects.ComputeLayouts | src/cyEx_project.py:159-161 | the layouts take their passes in list order until one raises, as `Progress` says |
| Projects.RunOne | src/cyEx_project.py:160-161 | one pass on one layout object: compute, then normalise |
| Projects.WriteLayouts | src/cyEx_project.py:147-154 | the node table after the loop, and whether it raised |
| Projects.AddLayoutsNext | src/cyEx_project.py:147-154 | one more layout after passes that completed writes its columns |
| Projects.AddLayoutsStops | src/cyEx_project.py:147-154 | a failing layout ends the loop, and later layouts do not change the table |
| Routes.Digit | src/routes.py:42-43 | digit d is the character `'0' + d` |
| Routes.NatToString | src/routes.py:42-43 | `f"{n}"` has at least one digit, and at least two exactly when n >= 10 (its injectivity is `NatToStringInjective`) |
| Routes.NatToStringInjective | src/routes.py:42-43 | distinct numbers print differently |
| Routes.FieldKeyInjective | src/routes.py:42-50 | for one field, distinct layouts have distinct keys |
| Routes.CountKeys | src/routes.py:51-65 | the variable keys include the three counts that are cast to `int` |
| Routes.SourceValid | src/routes.py:42-60 | the route's field names form a valid schema |
| Routes.NamesBelowFresh | src/routes.py:41-67 | a later layout's name key is not among the earlier ones |
| Routes.NamesShrink | src/routes.py:41-67 | one more layout uses one more form key, so the loop ends |
| Routes.FloatFieldsFacts | src/routes.py:49-62 | the comprehension succeeds exactly when every field is present and reads as a number, then maps each key to its `float()`; otherwise it raises KeyError or ValueError for one of the fields |
| Routes.FloatFields | src/routes.py:49-62 | the comprehension raises only KeyError or ValueError |
| Routes.LayoutAt | src/routes.py:42-66 | a layout that reads has both its algorithm and its name field (its errors are stated by `LayoutAtErr`) |
| Routes.Algos | src/routes.py:46 | the algorithms of the decoded layouts, one per layout, in order |
| Routes.Names | src/routes.py:47 | the names of the decoded layouts, one per layout, in order |
| Routes.VariablesOf | src/routes.py:66 | the variables dicts of the decoded layouts, one per layout, in order |
| Routes.Zip3 | src/routes.py:46-66 | the three parallel lists as one list of layouts, entry by entry |
| Routes.ZipSnoc | src/routes.py:46-66 | one more entry in each list is one more layout |
| Routes.Unzip | src/routes.py:46-66 | the columns of the zipped lists are the lists |
| Routes.PrependNothing | src/routes.py:36-39 | with nothing collected yet, the loop's result is that of the rest of the loop, unchanged |
| Routes.PrependPrepend | src/routes.py:46-67 | collected layouts in front of one more layout and the rest are the collected ones extended by it |
| Routes.DecodeStep | src/routes.py:41-67 | a layout that decodes goes in front of what the loop decodes from the next one |
| Routes.ReadVariables | src/routes.py:49-65 | computes layout i's variables dict: the floats, then the three counts cast, or the error |
| Routes.ReadLayout | src/routes.py:46-66 | computes layout i's algorithm, name and variables, or the error it raises |
| Routes.DecodeTurn | src/routes.py:42-67 | one turn appends layout i's entries to the three lists, or returns its error |
| Routes.DecodeLoop | src/routes.py:36-67 | the loop returns the three lists the form's layouts decode to, or the error of the first layout that raises |
| Routes.HandleUpload | src/routes.py:11-89 | the step-by-step route returns exactly the modelled response over any valid schema |
| Routes.UploadVrnetz | src/routes.py:11-89 | the route with its own field names returns exactly the modelled response |
| Routes.LayoutVariablesFacts | src/routes.py:49-65 | a variables dict exists exactly when every field is present and reads as a number; it then holds exactly those keys, the counts truncated to `int` |
| Routes.LayoutAtErr | src/routes.py:46-62 | a layout that raises lacks its algorithm field, or else its name field, or else a variable that is present and a number |
| Routes.DecodeFromOk | src/routes.py:41-67 | a loop that ends normally collected the layouts from i on, each with one of its fields and decoding, and the layout after them has neither field |
| Routes.DecodeFrom | src/routes.py:41-67 | the loop raises only KeyError or ValueError |
| Routes.DecodeFromUnfold | src/routes.py:41-67 | a normal end from i has decoded layout i and goes on normally from i + 1 |
| Routes.StopsCons | src/routes.py:44-45 | stopping after `rest` from i + 1 is stopping after `[l] + rest` from i |
| Routes.DecodesToCons | src/routes.py:41-67 | decoding layout i in front of the layouts after it |
| Routes.DecodeFromComplete | src/routes.py:41-67 | and back: layouts from i on that all decode, followed by one with neither field, are exactly what the loop collects |
| Routes.FailsBeyond | src/routes.py:41-67 | a layout that raises comes after any run of decoding layouts |
| Routes.DecodesToUnique | src/routes.py:41-67 | two decoding runs, each followed by a layout with neither field, are the same run |
| Routes.DecodeFromCons | src/routes.py:41-67 | a decoding layout i goes in front of what follows it |
| Routes.DecodeFromErr | src/routes.py:41-67 | a loop that raises has the error of the first layout from i on that does not decode, every layout before it decoding |
| Routes.FailsCons | src/routes.py:41-67 | raising at j after i + 1, with layout i decoding, is raising at j after i |
| Routes.DecodedCollected | src/routes.py:36-67 | a loop that ends normally collects, at entry k, the algorithm, name and variables of layout k + 1, and the next layout has neither field |
| Routes.CollectedDecodes | src/routes.py:36-67 | and back: lists collected from the form in that way are exactly what the loop collects |
| Routes.RouteErrorPage | src/routes.py:16-26 | the route answers with an error page exactly when no file or a nameless file was sent, or the file is not JSON, and the page says which |
| Routes.Route | src/routes.py:11-89 | a workflow call has an uploaded file with a name, the form's project name, overwrite False, and as many algorithms as names and variables dicts |
| Routes.RouteWorkflow | src/routes.py:27-89 | a workflow call passes the parsed file, its name, the project name, no overwrite, the tags, and the lists collected from the form |
| Routes.RouteWorkflowComplete | src/routes.py:27-89 | and back: a JSON file whose network section the `database` test accepts, a project name and lists collected from the form make the route call the workflow with exactly those |
| Routes.RouteRaises | src/routes.py:27-78 | a raising route lacks the project name, or has the error of the first layout that does not read, or else the network-section test's error |
| Routes.StringifyTrue | src/routes.py:76-78 | the `stringify` tag is set exactly when the network section is a dict whose `database` is `string` or `stitch` |
| Routes.Stringify | src/routes.py:76-78 | the tag test raises only KeyError or TypeError, and KeyError exactly when the document is a dict without a network section |
| Routes.CollectedNoOptDist | src/routes.py:49-62 | variables read without an `opt_dist` key leave the spring layout with no `k` |
| Routes.OptDistNotRead | src/routes.py:51-61 | none of the variable keys the route reads is `opt_dist` |
| Routes.UploadNoOptDist | src/routes.py:49-89 | no variables dict the route hands on holds `opt_dist`, so layout.py's `SpringVariables` of each gives no `k`; the route reads `opt_dis` |

## Left out

- Flask I/O: the request form and file list are parameters of the route, and the returned HTML and the workflow call are results. The upload workflow itself (`wf.VRNetzer_upload_workflow`) is not part of this model; the route's result is the call's arguments.
- Decoding the upload as UTF-8 is left out: the file's content is already text. The JSON parser is a parameter that returns a parsed document or nothing.
- `float()` of form text is a parameter of the route. Its inf/nan results and `int()`'s OverflowError on them are left out.
- A form field that was sent several times is left out: `to_dict()` keeps the first value, and the form is a map of single strings.
- `read_from_vrnetz` and `read_from_grahpml` (file I/O) are left out. The project is constructed from in-memory tables.
- Logging (`log.debug`, `st.log.error`) is left out; it has no effect on state.
- Floating point is modelled as real arithmetic. numpy's inf/nan for a zero divisor in `normalize_pos` is reported as a ZeroDivision error instead. Array element types are modelled for the cells read from JSON that numpy or Python arithmetic look at: `cy_pos`, `size` and `cy_col`; the layouts the libraries return are float arrays. Python integers too large for int64 are not modelled.
- The networkx, cartoGRAPHs and trimesh algorithms are opaque functions of an `Engines` value. Their numeric output is not modelled; only its shape is constrained, by `Conforms`. `swifter` is modelled as plain `apply`.
- Aliasing between a project's layouts is left out. The layout list holds each object once.
- Every `Layout` holds the project's own `nx.Graph` object (cyEx_project.py:81), so `get_node_data` and `set_node_data` (cyEx_project.py:110-131) also change the graph the layouts hold. The model updates only the project's copy. No layout reads node attributes, so no modelled result depends on this.
- pandas' DataFrame conversion in the constructor is left out. Tables are rows of cells with a RangeIndex. Link endpoints must be integral node ids; other hashable labels are not modelled.
- The debug display of `sample_sphere_pcd` is left out, and so is the commented-out open3d code.
- src/classes.py is not part of this model. The constants for the algorithm names and table keys are taken as `cartoGRAPH`, `spring`, `kamada_kawai`, `s`, `e`, `layouts`, `nodes`, `links` and `network`.
- The unreachable code after the NotImplementedError raises (layout.py lines 276-279 and 283-292) is not modelled.
- `create_cartoGRAPH_layout`'s `return ValueError(...)` at lines 232 and 257 cannot be reached: line 212 already fails on a missing matrix. It is not modelled separately.
- LayoutParams.SpringVariables: states the key set only. The values are stated by `LayoutParams.DefaultVariables` and `LayoutParams.SuppliedVariables`.
- Routes.HandleUpload: proved over any valid field-name schema, with termination argued by the number of unused form keys. `Routes.UploadVrnetz` instantiates the schema with the route's own names.
- CyExProjects.IsStringNetwork: the project's network section is always a dict (`Network.meta`). The project-level KeyError for a document without a network section, and the TypeError for a section that is not a dict, are not represented. `Routes.Stringify` models both for the upload route.
- `Graphs.Subgraph` keeps the parent's node order. A networkx subgraph view iterates its kept-node set instead when that set holds fewer than half the nodes. The order in which nodes reach the libraries and the sphere points can therefore differ from the model.
- The ImportError of `import cartoGRAPHs` (layout.py:208, documented at lines 195 and 202-203) is left out: the library is taken to be installed.
- Writing a Series into a node table with no rows makes pandas adopt the Series' index, so the table grows. `Frames.SetSeries` keeps zero rows.
- CyExProjects.CyPoints: equal-length `cy_pos` lists holding a non-number are all reported as TypeError. numpy's finer dtype rules are not modelled: booleans become numbers, a None past the second coordinate is carried along, and nested lists form deeper arrays. numpy before 1.24 builds an object array from mixed cells and then raises IndexError instead of ValueError.
- SphereSampling.SphereCenter: every layout that is not a list of 3-vectors is reported as ValueError. trimesh applies a 2-vector as a planar translation, which the model does not represent; the libraries only ever return 3-vectors here.
- CyExProjects.Sizes: a missing `size` cell is read as NaN, which is what pandas stores in a column that also holds an int or a float. A column holding only missing cells, or only bools and missing cells, keeps Python's None instead, and `max` or the division then raises TypeError. The model reads those cells as NaN too, so such a table fails later, at the colour column, with ValueError.
