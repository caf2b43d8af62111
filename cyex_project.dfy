/** `CyExProject` of src/cyEx_project.py: the network's tables, the graph
    built from them, the layouts added to the project, and the steps that
    compute the layouts and write them back into the node and link tables. */
module CyExProjects {
  import opened Common
  import opened Graphs
  import opened PosDicts
  import opened Normalize
  import opened Foreign
  import opened LayoutParams
  import opened Layouts
  import opened Frames

  /** A VRNetz network: its node table, its link table and its metadata dict. */
  datatype Network = Network(nodes: Frame, links: Frame, meta: map<string, Value>)

  /** The `is_string_network` property: the metadata names the string or
      stitch database. */
  predicate IsStringNetwork(meta: map<string, Value>)
  {
    "database" in meta && meta["database"] in [Str("string"), Str("stitch")]
  }

  /** Only a `database` entry that is one of the two names makes a string
      network; any other entry, and no entry, does not. */
  lemma StringNetworkNames(meta: map<string, Value>, db: Value)
    ensures IsStringNetwork(meta["database" := db]) <==> db == Str("string") || db == Str("stitch")
    ensures "database" !in meta ==> !IsStringNetwork(meta)
  {
  }

  /** The `size` property: (nodes, edges) of the graph, None without one. */
  function SizeOf(graph: Option<Graph>): (r: Option<(nat, nat)>)
    ensures r.None? <==> graph.None?
    ensures graph.Some? && Distinct(graph.value.nodes) ==>
      r.value.0 == |NodeSet(graph.value)| && r.value.1 == NumberOfEdges(graph.value)
  {
    match graph
    case None => None
    case Some(g) =>
      if Distinct(g.nodes) then DistinctCard(g.nodes); Some((|g.nodes|, NumberOfEdges(g)))
      else Some((|g.nodes|, NumberOfEdges(g)))
  }

  /** The `n` property; `None[0]` raises TypeError. */
  function NodeCount(graph: Option<Graph>): (r: Result<nat>)
    ensures r.Ok? <==> graph.Some?
    ensures graph.Some? && Distinct(graph.value.nodes) ==> r.value == |NodeSet(graph.value)|
  {
    match SizeOf(graph)
    case None => Err(TypeError("'NoneType' object is not subscriptable"))
    case Some(s) => Ok(s.0)
  }

  /** The `l` property. */
  function LinkCount(graph: Option<Graph>): (r: Result<nat>)
    ensures r.Ok? <==> graph.Some?
    ensures graph.Some? ==> r.value == |graph.value.edges|
  {
    match SizeOf(graph)
    case None => Err(TypeError("'NoneType' object is not subscriptable"))
    case Some(s) => Ok(s.1)
  }

  // ----- node data -----------------------------------------------------------------

  const DataKey := "data"

  /** `set_node_data(node, data)`: `graph.nodes[node]["data"] = data`. */
  function SetNodeDataStep(graph: Option<Graph>, node: NodeId, data: Value): (r: Result<Graph>)
    ensures r.Ok? <==> graph.Some? && node in graph.value.attrs
    ensures r.Ok? ==> r.value.nodes == graph.value.nodes && r.value.edges == graph.value.edges
  {
    match graph
    case None => Err(AttributeError("'NoneType' object has no attribute 'nodes'"))
    case Some(g) =>
      if node !in g.attrs then Err(KeyError("node"))
      else Ok(g.(attrs := g.attrs[node := g.attrs[node][DataKey := data]]))
  }

  /** `get_node_data(node)`: a node without data is given an empty dict first,
      which is then returned. */
  function GetNodeDataStep(graph: Option<Graph>, node: NodeId): (r: Result<(Graph, Value)>)
    ensures r.Ok? <==> graph.Some? && node in graph.value.attrs
  {
    match graph
    case None => Err(AttributeError("'NoneType' object has no attribute 'nodes'"))
    case Some(g) =>
      if node !in g.attrs then Err(KeyError("node"))
      else if DataKey in g.attrs[node] then Ok((g, g.attrs[node][DataKey]))
      else
        var h := g.(attrs := g.attrs[node := g.attrs[node][DataKey := Dict(map[])]]);
        Ok((h, Dict(map[])))
  }

  /** Data set on a node is what `get_node_data` returns, and reading it
      changes nothing. */
  lemma SetThenGet(graph: Option<Graph>, node: NodeId, data: Value)
    requires SetNodeDataStep(graph, node, data).Ok?
    ensures var g := SetNodeDataStep(graph, node, data).value;
      GetNodeDataStep(Some(g), node) == Ok((g, data))
  {
  }

  /** A node without data gets an empty dict, and only that changes. */
  lemma GetCreatesEmpty(graph: Graph, node: NodeId)
    requires node in graph.attrs && DataKey !in graph.attrs[node]
    ensures var r := GetNodeDataStep(Some(graph), node);
      && r.Ok? && r.value.1 == Dict(map[])
      && Some(r.value.0) == Some(SetNodeDataStep(Some(graph), node, Dict(map[])).value)
  {
  }

  /** Setting data keeps the graph valid and touches one attribute of one node. */
  lemma SetNodeDataValid(graph: Graph, node: NodeId, data: Value)
    requires Valid(graph) && node in graph.attrs
    ensures var h := SetNodeDataStep(Some(graph), node, data).value;
      && Valid(h)
      && (forall m :: m in graph.attrs && m != node ==> h.attrs[m] == graph.attrs[m])
      && (forall k :: k in graph.attrs[node] && k != DataKey ==> h.attrs[node][k] == graph.attrs[node][k])
  {
  }

  // ----- add_layouts_to_network -------------------------------------------------------

  /** A coordinate vector as a list cell. */
  function PointValue(p: Point): (v: Value)
    ensures v.List? && |v.items| == |p| && forall k :: 0 <= k < |p| ==> v.items[k] == Float(p[k])
  {
    List(seq(|p|, k requires 0 <= k < |p| => Float(p[k])))
  }

  /** `pos[:, :2]` of one row. */
  function FirstTwo(p: Point): (q: Point)
    ensures |q| <= 2 && |q| <= |p| && q == p[..|q|] && (|p| >= 2 ==> |q| == 2) && (|p| < 2 ==> q == p)
  {
    if |p| < 2 then p else p[..2]
  }

  /** The values a layout writes into the `<name>_pos` column. */
  function PosColumn(vs: seq<Point>): (col: seq<Value>)
    ensures |col| == |vs| && forall i :: 0 <= i < |vs| ==> col[i] == PointValue(vs[i])
  {
    seq(|vs|, i requires 0 <= i < |vs| => PointValue(vs[i]))
  }

  /** The values of the `<name>2d_pos` column: x, y and a zero z. */
  function FlatColumn(vs: seq<Point>): (col: seq<Value>)
    ensures |col| == |vs| && forall i :: 0 <= i < |vs| ==> col[i] == PointValue(FirstTwo(vs[i]) + [0.0])
  {
    seq(|vs|, i requires 0 <= i < |vs| => PointValue(FirstTwo(vs[i]) + [0.0]))
  }

  /** One pass of the loop at lines 147-154: the layout's values as a numpy
      array (an empty dict gives a one-dimensional array, which cannot be
      sliced by two indices; rows of unequal length do not form an array),
      then the two columns, the flat one first. */
  function LayoutColumns(nodes: Frame, s: LayoutState): (r: Result<Frame>)
    ensures r.Ok? ==> r.value.columns == nodes.columns + {s.name + "_pos", s.name + "2d_pos"} && |r.value.rows| == |nodes.rows|
    ensures r.Err? ==> (r.error.IndexError? <==> s.pos == []) && (r.error.ValueError? <==> s.pos != [])
  {
    var vs := Values(s.pos);
    if |vs| == 0 then Err(IndexError("too many indices for array"))
    else if !Uniform(vs) then Err(ValueError("inhomogeneous shape"))
    else Ok(SetSeries(SetSeries(nodes, s.name + "2d_pos", FlatColumn(vs)), s.name + "_pos", PosColumn(vs)))
  }

  /** A frame and whether the statement that produced it raised. */
  datatype FrameStep = FrameStep(frame: Frame, outcome: Outcome)

  /** `add_layouts_to_network(layouts)`: the columns of each layout in
      turn; the node table is changed in place, so the columns of the
      layouts before a failing one stay. */
  function AddLayoutsColumns(nodes: Frame, ss: seq<LayoutState>): FrameStep
    decreases |ss|
  {
    if ss == [] then FrameStep(nodes, Pass)
    else
      var before := AddLayoutsColumns(nodes, ss[..|ss| - 1]);
      if before.outcome.Fail? then before
      else match LayoutColumns(before.frame, ss[|ss| - 1])
        case Err(err) => FrameStep(before.frame, Fail(err))
        case Ok(f) => FrameStep(f, Pass)
  }

  /** The two column names of a layout differ. */
  lemma ColumnNamesDiffer(name: string)
    ensures name + "_pos" != name + "2d_pos"
  {
    assert |name + "_pos"| != |name + "2d_pos"|;
  }

  /** A layout whose values form an array writes row i of `<name>_pos` with
      its i-th vector and row i of `<name>2d_pos` with that vector's first
      two coordinates and 0; rows past the layout get NaN, and no other
      column changes. */
  lemma LayoutColumnsFacts(nodes: Frame, s: LayoutState)
    requires LayoutColumns(nodes, s).Ok?
    ensures var f := LayoutColumns(nodes, s).value;
      var vs := Values(s.pos);
      && f.columns == nodes.columns + {s.name + "_pos", s.name + "2d_pos"} && |f.rows| == |nodes.rows|
      && (forall i :: 0 <= i < |nodes.rows| ==>
            f.rows[i][s.name + "_pos"] == (if i < |vs| then PointValue(vs[i]) else Null)
            && f.rows[i][s.name + "2d_pos"] == (if i < |vs| then PointValue(FirstTwo(vs[i]) + [0.0]) else Null))
      && (forall i, k :: 0 <= i < |nodes.rows| && k in nodes.columns && k != s.name + "_pos" && k != s.name + "2d_pos" ==>
            f.rows[i][k] == nodes.rows[i][k])
  {
    ColumnNamesDiffer(s.name);
  }

  /** The array fails exactly for an empty or ragged layout. */
  lemma LayoutColumnsFails(nodes: Frame, s: LayoutState)
    ensures LayoutColumns(nodes, s).Err? <==> s.pos == [] || !Uniform(Values(s.pos))
  {
  }

  /** Writing a column twice keeps the second write. */
  lemma SetSeriesTwice(f: Frame, c: string, v1: seq<Value>, v2: seq<Value>)
    ensures SetSeries(SetSeries(f, c, v1), c, v2) == SetSeries(f, c, v2)
  {
    var a := SetSeries(SetSeries(f, c, v1), c, v2);
    var b := SetSeries(f, c, v2);
    assert forall i :: 0 <= i < |f.rows| ==> a.rows[i] == b.rows[i];
  }

  /** Writes to two different columns commute. */
  lemma SetSeriesCommute(f: Frame, c: string, d: string, v: seq<Value>, w: seq<Value>)
    requires c != d
    ensures SetSeries(SetSeries(f, c, v), d, w) == SetSeries(SetSeries(f, d, w), c, v)
  {
    var a := SetSeries(SetSeries(f, c, v), d, w);
    var b := SetSeries(SetSeries(f, d, w), c, v);
    assert forall i :: 0 <= i < |f.rows| ==> a.rows[i] == b.rows[i];
  }

  /** A later layout of the same name overwrites the columns of an earlier one. */
  lemma SameNameOverwrites(nodes: Frame, s: LayoutState, t: LayoutState)
    requires s.name == t.name && LayoutColumns(nodes, s).Ok? && LayoutColumns(nodes, t).Ok?
    ensures LayoutColumns(LayoutColumns(nodes, s).value, t) == LayoutColumns(nodes, t)
  {
    var n := s.name;
    var vs, vt := Values(s.pos), Values(t.pos);
    var f1 := SetSeries(nodes, n + "2d_pos", FlatColumn(vs));
    ColumnNamesDiffer(n);
    SetSeriesCommute(f1, n + "_pos", n + "2d_pos", PosColumn(vs), FlatColumn(vt));
    SetSeriesTwice(nodes, n + "2d_pos", FlatColumn(vs), FlatColumn(vt));
    SetSeriesTwice(SetSeries(nodes, n + "2d_pos", FlatColumn(vt)), n + "_pos", PosColumn(vs), PosColumn(vt));
  }

  /** Keys that are strictly ascending and are exactly 0 .. n-1 are 0 .. n-1
      in order: after `normalize_pos`, the layout of a graph whose nodes are
      the rows of the node table writes node i's position into row i. */
  lemma SortedIndexKeys(d: PosDict, n: nat)
    requires StrictlySorted(d) && KeySet(d) == Indices(n)
    ensures Keys(d) == Range(n)
  {
    assert IsDict(d);
    DictSize(d);
    DistinctCard(Range(n));
    assert |d| == n;
    forall i | 0 <= i < n ensures d[i].0 == i {
      KeyAtLeast(d, n, i);
      KeyAtMost(d, n, i);
    }
  }

  lemma {:induction false} KeyAtLeast(d: PosDict, n: nat, i: nat)
    requires StrictlySorted(d) && KeySet(d) == Indices(n) && i < |d|
    ensures d[i].0 >= i
  {
    assert d[i].0 in KeySet(d);
    IndicesRange(n);
    if i > 0 {
      KeyAtLeast(d, n, i - 1);
      assert d[i - 1].0 < d[i].0;
    }
  }

  lemma {:induction false} KeyAtMost(d: PosDict, n: nat, i: nat)
    requires StrictlySorted(d) && KeySet(d) == Indices(n) && i < |d| == n
    ensures d[i].0 <= i
    decreases n - i
  {
    assert d[i].0 in KeySet(d);
    IndicesRange(n);
    if i < n - 1 {
      KeyAtMost(d, n, i + 1);
      assert d[i].0 < d[i + 1].0;
    }
  }

  // ----- handle_cy_layout -------------------------------------------------------------

  const LegacyColumn := "layouts"
  const CyPos := "cy_pos"
  const CyCol := "cy_col"
  const SizeColumn := "size"

  /** `extract_cy` of one row (lines 184-191): the `p`, `c` and `s` entries
      of the first element of the row's `layouts` list become its `cy_pos`,
      `cy_col` and `size`. */
  function ExtractCy(row: Row): (r: Result<Row>)
    requires LegacyColumn in row
    ensures r.Ok? ==> r.value.Keys == row.Keys + {CyPos, CyCol, SizeColumn}
  {
    match row[LegacyColumn]
    case List(items) =>
      if |items| == 0 then Err(IndexError("list index out of range"))
      else
        (match items[0]
         case Dict(m) =>
           if "p" !in m then Err(KeyError("p"))
           else if "c" !in m then Err(KeyError("c"))
           else if "s" !in m then Err(KeyError("s"))
           else Ok(row[CyPos := m["p"]][CyCol := m["c"]][SizeColumn := m["s"]])
         case _ => Err(TypeError("indices must be integers")))
    case Dict(_) => Err(KeyError("0"))
    case Str(s) => if s == "" then Err(IndexError("string index out of range")) else Err(TypeError("string indices must be integers"))
    case _ => Err(TypeError("object is not subscriptable"))
  }

  /** `extract_cy` applied row by row; the first failing row raises. */
  function ExtractCyRows(rows: seq<Row>, cols: set<string>): (r: Result<seq<Row>>)
    requires forall i :: 0 <= i < |rows| ==> rows[i].Keys == cols
    requires LegacyColumn in cols
    ensures r.Ok? ==> |r.value| == |rows|
    ensures r.Ok? ==> forall i :: 0 <= i < |rows| ==> ExtractCy(rows[i]).Ok? && r.value[i] == ExtractCy(rows[i]).value
    ensures r.Err? ==> exists i :: 0 <= i < |rows| && ExtractCy(rows[i]).Err?
  {
    if rows == [] then Ok([])
    else
      var head :- ExtractCy(rows[0]);
      var rest :- ExtractCyRows(rows[1..], cols);
      Ok([head] + rest)
  }

  /** `nodes.apply(extract_cy, axis=1)`: a new table with the three columns added. */
  function ExtractCyFrame(nodes: Frame): (r: Result<Frame>)
    requires LegacyColumn in nodes.columns
    ensures r.Ok? ==> |r.value.rows| == |nodes.rows|
  {
    if nodes.rows == [] then Ok(nodes)
    else
      var rows :- ExtractCyRows(nodes.rows, nodes.columns);
      var f: Frame := DataFrame(nodes.columns + {CyPos, CyCol, SizeColumn}, rows);
      Ok(f)
  }

  /** A list of numbers as a coordinate vector. */
  function ToPoint(v: Value): Option<Point>
  {
    match v
    case List(items) =>
      if forall k :: 0 <= k < |items| ==> items[k].Int? || items[k].Float? then
        Some(seq(|items|, k requires 0 <= k < |items| && (items[k].Int? || items[k].Float?) => NumberOf(items[k])))
      else None
    case _ => None
  }

  function NumberOf(v: Value): real
    requires v.Int? || v.Float?
  {
    if v.Int? then v.i as real else v.r
  }

  /** Every cell is a list of numbers. */
  predicate AllPoints(cells: seq<Value>)
  {
    forall i :: 0 <= i < |cells| ==> ToPoint(cells[i]).Some?
  }

  function Points(cells: seq<Value>): (ps: seq<Point>)
    requires AllPoints(cells)
    ensures |ps| == |cells| && forall i :: 0 <= i < |cells| ==> ps[i] == ToPoint(cells[i]).value
  {
    seq(|cells|, i requires 0 <= i < |cells| => ToPoint(cells[i]).value)
  }

  /** The cells, all lists of numbers, form an array of integers: at least
      one row, every row as long as the first and at least one coordinate
      long, and no float among them (numpy gives the empty `np.array([])`
      and `np.array([[], []])` a float type). */
  predicate IntegerArray(cells: seq<Value>)
    requires AllPoints(cells)
  {
    && Rectangular(Points(cells), 1)
    && forall i, k :: 0 <= i < |cells| && 0 <= k < |cells[i].items| ==> cells[i].items[k].Int?
  }

  /** Every cell is a list. */
  predicate AllLists(cells: seq<Value>)
  {
    |cells| == 0 || (cells[0].List? && AllLists(cells[1..]))
  }

  /** No cell is a list. */
  predicate NoLists(cells: seq<Value>)
  {
    |cells| == 0 || (!cells[0].List? && NoLists(cells[1..]))
  }

  /** The list cells are all `n` long. */
  predicate LengthsAre(cells: seq<Value>, n: nat)
    requires AllLists(cells)
  {
    |cells| == 0 || (|cells[0].items| == n && LengthsAre(cells[1..], n))
  }

  /** The list cells are all as long as the first. */
  predicate SameLength(cells: seq<Value>)
    requires AllLists(cells)
  {
    |cells| == 0 || LengthsAre(cells, |cells[0].items|)
  }

  lemma {:induction false} ListsFromAll(cells: seq<Value>)
    requires forall i :: 0 <= i < |cells| ==> cells[i].List?
    ensures AllLists(cells)
    decreases |cells|
  {
    if |cells| > 0 {
      ListsFromAll(cells[1..]);
    }
  }

  lemma {:induction false} LengthsFromAll(cells: seq<Value>, n: nat)
    requires AllLists(cells) && forall i :: 0 <= i < |cells| ==> cells[i].List? && |cells[i].items| == n
    ensures LengthsAre(cells, n)
    decreases |cells|
  {
    if |cells| > 0 {
      LengthsFromAll(cells[1..], n);
    }
  }

  /** Cells that are all lists of numbers are all lists, and all as long
      as the first when their points are. */
  lemma PointsShape(cells: seq<Value>)
    ensures AllPoints(cells) ==> AllLists(cells)
    ensures AllPoints(cells) && Uniform(Points(cells)) ==> AllLists(cells) && SameLength(cells)
  {
    if AllPoints(cells) {
      ListsFromAll(cells);
      if |cells| > 0 && Uniform(Points(cells)) {
        var ps := Points(cells);
        assert forall i :: 0 <= i < |cells| ==> cells[i].List? && |cells[i].items| == |ps[i]|;
        LengthsFromAll(cells, |cells[0].items|);
      }
    }
  }

  /** Lines 196-197: `cy_pos` as a dict by index, normalised over two axes
      (layout.py:350-353). numpy makes the cells of a non-empty table with no
      list among them a one-dimensional array that `pos[:, 0]` cannot index
      (IndexError), and refuses lists mixed with other cells or lists of
      unequal length (ValueError). Equal-length lists holding a non-number
      fail at `abs(min(...))` or `/=` (TypeError), and so does an array of
      integers, at the first `/=`, which numpy cannot store back into it. */
  function CyPoints(nodes: Frame): (r: Result<PosDict>)
    ensures CyPos !in nodes.columns ==> r == Err(KeyError(CyPos))
    ensures r.Ok? ==> CyPos in nodes.columns && AllPoints(Cells(nodes, CyPos)) && !IntegerArray(Cells(nodes, CyPos))
    ensures CyPos in nodes.columns && AllPoints(Cells(nodes, CyPos)) && IntegerArray(Cells(nodes, CyPos)) ==>
      r.Err? && r.error.TypeError?
  {
    if CyPos !in nodes.columns then Err(KeyError(CyPos))
    else
      var cells := Cells(nodes, CyPos);
      PointsShape(cells);
      if |cells| > 0 && NoLists(cells) then Err(IndexError("too many indices for array"))
      else if !AllLists(cells) || !SameLength(cells) then Err(ValueError("inhomogeneous shape"))
      else if !AllPoints(cells) then Err(TypeError("cy_pos does not hold numbers"))
      else if IntegerArray(cells) then Err(TypeError("Cannot cast ufunc 'divide' output from dtype('float64') to dtype('int64')"))
      else Normalized(Zip(Range(|cells|), Points(cells)), 2)
  }

  /** Two rows whose `cy_pos` holds the integer points [0, 1] and [2, 3]
      cannot be normalised. */
  lemma IntegerCyPosRaises(col: Value)
    ensures var nodes: Frame := DataFrame({CyPos, CyCol}, [
        map[CyPos := List([Int(0), Int(1)]), CyCol := col],
        map[CyPos := List([Int(2), Int(3)]), CyCol := col]]);
      CyPoints(nodes).Err? && CyPoints(nodes).error.TypeError?
  {
    var nodes: Frame := DataFrame({CyPos, CyCol}, [
        map[CyPos := List([Int(0), Int(1)]), CyCol := col],
        map[CyPos := List([Int(2), Int(3)]), CyCol := col]]);
    var cells := Cells(nodes, CyPos);
    assert cells == [List([Int(0), Int(1)]), List([Int(2), Int(3)])];
    assert ToPoint(cells[0]).Some? && ToPoint(cells[1]).Some?;
    var ps := Points(cells);
    assert |ps[0]| == 2 && |ps[1]| == 2;
    assert IntegerArray(cells);
  }

  /** The errors of `CyPoints` by the shape numpy sees: IndexError when a
      non-empty table has no list cell, ValueError for lists mixed with other
      cells or of unequal length, and TypeError only for equal-length lists. */
  lemma CyPointsErrors(nodes: Frame)
    requires CyPos in nodes.columns
    ensures var cells := Cells(nodes, CyPos);
      |cells| > 0 && NoLists(cells) ==> CyPoints(nodes).Err? && CyPoints(nodes).error.IndexError?
    ensures var cells := Cells(nodes, CyPos);
      !NoLists(cells) && !AllLists(cells) ==> CyPoints(nodes).Err? && CyPoints(nodes).error.ValueError?
    ensures var cells := Cells(nodes, CyPos);
      AllLists(cells) && !SameLength(cells) ==> CyPoints(nodes).Err? && CyPoints(nodes).error.ValueError?
    ensures CyPoints(nodes).Err? && CyPoints(nodes).error.TypeError? ==>
      AllLists(Cells(nodes, CyPos)) && SameLength(Cells(nodes, CyPos))
  {
  }

  /** A row whose `cy_pos` is missing (NaN) beside a row with a point
      makes numpy refuse the array. */
  lemma MissingCyPosRaises(col: Value)
    ensures var nodes: Frame := DataFrame({CyPos, CyCol}, [
        map[CyPos := List([Float(0.5), Float(1.0)]), CyCol := col],
        map[CyPos := Null, CyCol := col]]);
      CyPoints(nodes).Err? && CyPoints(nodes).error.ValueError?
  {
    var nodes: Frame := DataFrame({CyPos, CyCol}, [
        map[CyPos := List([Float(0.5), Float(1.0)]), CyCol := col],
        map[CyPos := Null, CyCol := col]]);
    var cells := Cells(nodes, CyPos);
    assert cells[0].List? && !cells[1].List?;
    CyPointsErrors(nodes);
  }

  /** Lines 196-199: the normalised vectors padded with a zero z. */
  function CyPosStep(nodes: Frame): (r: Result<Frame>)
    ensures r.Ok? ==> r.value.columns == nodes.columns + {CyPos} && |r.value.rows| == |nodes.rows|
  {
    var p :- CyPoints(nodes);
    Ok(SetSeries(nodes, CyPos, PadColumn(Values(p))))
  }

  /** `np.hstack((pos, zeros))`, each row as a list cell. */
  function PadColumn(vs: seq<Point>): (col: seq<Value>)
    ensures |col| == |vs| && forall i :: 0 <= i < |vs| ==> col[i] == PointValue(vs[i] + [0.0])
  {
    seq(|vs|, i requires 0 <= i < |vs| => PointValue(vs[i] + [0.0]))
  }

  /** A `size` cell as Python sees it when it iterates the column: a
      number (a bool counts as 0 or 1) or NaN, the missing value. */
  datatype SizeValue = Number(x: real) | NaN

  /** The cell as a size, or None for a cell that `max` or `/` refuses. */
  function SizeNumber(v: Value): Option<SizeValue>
  {
    match v
    case Int(i) => Some(Number(i as real))
    case Float(r) => Some(Number(r))
    case Bool(b) => Some(Number(if b then 1.0 else 0.0))
    case Null => Some(NaN)
    case _ => None
  }

  /** Every cell is a number or NaN. */
  predicate AllSizes(cells: seq<Value>)
  {
    forall i :: 0 <= i < |cells| ==> SizeNumber(cells[i]).Some?
  }

  function Sizes(cells: seq<Value>): (xs: seq<SizeValue>)
    requires AllSizes(cells)
    ensures |xs| == |cells| && forall i :: 0 <= i < |cells| ==> xs[i] == SizeNumber(cells[i]).value
  {
    seq(|cells|, i requires 0 <= i < |cells| => SizeNumber(cells[i]).value)
  }

  /** `a > b` on Python floats, false whenever either side is NaN. */
  predicate Greater(a: SizeValue, b: SizeValue)
  {
    a.Number? && b.Number? && a.x > b.x
  }

  /** Python's `max`: the first item, replaced in turn by every later item
      greater than the one kept. A leading NaN is never replaced, and a NaN
      after a number never replaces it. */
  function PyMax(xs: seq<SizeValue>): (m: SizeValue)
    requires |xs| > 0
    ensures xs[0].NaN? ==> m.NaN?
    ensures xs[0].Number? ==>
      && m.Number? && (exists k :: 0 <= k < |xs| && xs[k] == m)
      && forall i :: 0 <= i < |xs| && xs[i].Number? ==> xs[i].x <= m.x
    decreases |xs|
  {
    if |xs| == 1 then xs[0]
    else
      var m := PyMax(xs[..|xs| - 1]);
      assert forall i :: 0 <= i < |xs| - 1 ==> xs[..|xs| - 1][i] == xs[i];
      if Greater(xs[|xs| - 1], m) then xs[|xs| - 1] else m
  }

  /** `x / m` on Python floats, for a non-zero `m`: NaN on either side
      gives NaN. */
  function Divide(a: SizeValue, m: SizeValue): SizeValue
    requires m != Number(0.0)
  {
    if a.Number? && m.Number? then Number(a.x / m.x) else NaN
  }

  /** Lines 206-209: each size divided by the largest. `max` iterates the
      Series as Python numbers and the lambda divides Python numbers, so a
      zero maximum raises ZeroDivisionError; a cell that is neither a number
      nor NaN fails a comparison or the division (TypeError). */
  function ScaledSizes(nodes: Frame): (r: Result<seq<SizeValue>>)
    ensures r.Ok? ==> |r.value| == |nodes.rows|
    ensures SizeColumn in nodes.columns && !AllSizes(Cells(nodes, SizeColumn)) ==> r.Err? && r.error.TypeError?
  {
    if SizeColumn !in nodes.columns then Err(KeyError(SizeColumn))
    else
      var cells := Cells(nodes, SizeColumn);
      if !AllSizes(cells) then Err(TypeError("size does not hold numbers"))
      else ScaleByMax(Sizes(cells))
  }

  function ScaleByMax(xs: seq<SizeValue>): (r: Result<seq<SizeValue>>)
    ensures r.Ok? ==> |r.value| == |xs|
    ensures r.Err? <==> |xs| == 0 || PyMax(xs) == Number(0.0)
    ensures |xs| == 0 ==> r.Err? && r.error.ValueError?
    ensures |xs| > 0 && r.Err? ==> r.error.ZeroDivision?
  {
    if |xs| == 0 then Err(ValueError("max() arg is an empty sequence"))
    else
      var m := PyMax(xs);
      if m == Number(0.0) then Err(ZeroDivision("float division by zero"))
      else Ok(seq(|xs|, i requires 0 <= i < |xs| => Divide(xs[i], m)))
  }

  /** The scaled sizes written back as a float column, NaN as NaN. */
  function FloatColumn(xs: seq<SizeValue>): (col: seq<Value>)
    ensures |col| == |xs| && forall i :: 0 <= i < |xs| ==> col[i] == if xs[i].Number? then Float(xs[i].x) else Null
  {
    seq(|xs|, i requires 0 <= i < |xs| => if xs[i].Number? then Float(xs[i].x) else Null)
  }

  /** `int(255 * size)`: the alpha channel a node's size gives it. */
  function Alpha(size: real): int
  {
    Trunc(255.0 * size)
  }

  /** `extract_color` of one row (lines 201-204): the colour list with the
      alpha appended. `[int(255 * x["size"])]` is built before the `+`, so a
      NaN size raises ValueError whatever the colour cell holds. */
  function WithAlpha(col: Value, size: SizeValue): Result<Value>
  {
    if size.NaN? then Err(ValueError("cannot convert float NaN to integer"))
    else if col.List? then Ok(List(col.items + [Int(Alpha(size.x))]))
    else Err(TypeError("can only concatenate list to list"))
  }

  /** Lines 210-214, computed row by row before the column is assigned: the
      first row that raises decides the error. */
  function ColoredColumn(cells: seq<Value>, sizes: seq<SizeValue>): (r: Result<seq<Value>>)
    requires |cells| == |sizes|
    ensures r.Ok? <==> forall i :: 0 <= i < |cells| ==> WithAlpha(cells[i], sizes[i]).Ok?
    ensures r.Ok? ==> |r.value| == |cells| && forall i :: 0 <= i < |cells| ==> r.value[i] == WithAlpha(cells[i], sizes[i]).value
    ensures r.Err? ==>
      exists i :: 0 <= i < |cells| && WithAlpha(cells[i], sizes[i]) == Err(r.error) &&
        forall j :: 0 <= j < i ==> WithAlpha(cells[j], sizes[j]).Ok?
    decreases |cells|
  {
    if |cells| == 0 then Ok([])
    else
      match WithAlpha(cells[0], sizes[0])
      case Err(err) => Err(err)
      case Ok(c) =>
        var rest := ColoredColumn(cells[1..], sizes[1..]);
        assert forall i :: 0 <= i < |cells| - 1 ==> cells[1..][i] == cells[i + 1] && sizes[1..][i] == sizes[i + 1];
        if rest.Err? then
          var k :| 0 <= k < |cells| - 1 && WithAlpha(cells[1..][k], sizes[1..][k]) == Err(rest.error)
            && forall j :: 0 <= j < k ==> WithAlpha(cells[1..][j], sizes[1..][j]).Ok?;
          assert WithAlpha(cells[k + 1], sizes[k + 1]) == Err(rest.error);
          Err(rest.error)
        else
          Ok([c] + rest.value)
  }

  /** `handle_cy_layout` (lines 178-216). The legacy extraction builds a new
      table, every later write changes the table it is given in place: when
      there was no legacy column that is the network's own table, so a
      failure after the `cy_pos` write leaves what was written so far; the
      test at line 195 only asks for `cy_col`. */
  function HandleCyLayoutStep(nodes: Frame): (r: FrameStep)
    ensures |r.frame.rows| == |nodes.rows|
    ensures LegacyColumn !in nodes.columns && CyCol !in nodes.columns ==> r == FrameStep(nodes, Pass)
  {
    var legacy := LegacyColumn in nodes.columns;
    var extracted := if legacy then ExtractCyFrame(nodes) else Ok(nodes);
    if extracted.Err? then FrameStep(nodes, Fail(extracted.error))
    else if CyCol !in extracted.value.columns then FrameStep(extracted.value, Pass)
    else
      CyUpdateRows(extracted.value, if legacy then Some(nodes) else None);
      CyUpdate(extracted.value, if legacy then Some(nodes) else None)
  }

  /** Lines 196-214 keep the rows of the table they write, or leave the
      network's original table after a failure. */
  lemma CyUpdateRows(f: Frame, original: Option<Frame>)
    requires CyCol in f.columns
    ensures var r := CyUpdate(f, original);
      |r.frame.rows| == |f.rows| || (original.Some? && r.frame == original.value)
  {
    if CyPosStep(f).Ok? {
      var f2 := CyPosStep(f).value;
      if ScaledSizes(f2).Ok? {
        var f3 := SetSeries(f2, SizeColumn, FloatColumn(ScaledSizes(f2).value));
        assert |f3.rows| == |f.rows|;
      }
    }
  }

  /** Lines 196-214 on a table `f` with `cy_col`. `original` is the
      network's table when `f` is a new one; otherwise `f` is the network's
      table, and a failure leaves the writes made to it so far. */
  function CyUpdate(f: Frame, original: Option<Frame>): FrameStep
    requires CyCol in f.columns
  {
    match CyPosStep(f)
    case Err(err) => FrameStep(Kept(original, f), Fail(err))
    case Ok(f2) =>
      match ScaledSizes(f2)
      case Err(err) => FrameStep(Kept(original, f2), Fail(err))
      case Ok(sizes) =>
        var f3 := SetSeries(f2, SizeColumn, FloatColumn(sizes));
        match ColoredColumn(Cells(f3, CyCol), sizes)
        case Err(err) => FrameStep(Kept(original, f3), Fail(err))
        case Ok(cols) => FrameStep(SetSeries(f3, CyCol, cols), Pass)
  }

  /** The network's table after a failure: the original one, or the table
      written in place. */
  function Kept(original: Option<Frame>, written: Frame): Frame
  {
    if original.Some? then original.value else written
  }

  /** The legacy format: a row whose `layouts` cell is a non-empty list with
      a dict holding `p`, `c` and `s` first gets those three as `cy_pos`,
      `cy_col` and `size`, and keeps its other cells; any other cell raises. */
  lemma ExtractCyCopies(row: Row)
    requires LegacyColumn in row
    ensures var cell := row[LegacyColumn];
      ExtractCy(row).Ok? <==>
        cell.List? && |cell.items| > 0 && cell.items[0].Dict?
        && "p" in cell.items[0].entries && "c" in cell.items[0].entries && "s" in cell.items[0].entries
    ensures ExtractCy(row).Ok? ==>
      var m := row[LegacyColumn].items[0].entries;
      var r := ExtractCy(row).value;
      && r[CyPos] == m["p"] && r[CyCol] == m["c"] && r[SizeColumn] == m["s"]
      && forall k :: k in row && k !in {CyPos, CyCol, SizeColumn} ==> r[k] == row[k]
  {
  }


  /** The test at line 195 asks only for `cy_col`: a table with `cy_col` but
      no `cy_pos` fails at `nodes["cy_pos"]` and is left as it was. */
  lemma CyColWithoutCyPos(nodes: Frame)
    requires LegacyColumn !in nodes.columns && CyCol in nodes.columns && CyPos !in nodes.columns
    ensures HandleCyLayoutStep(nodes) == FrameStep(nodes, Fail(KeyError(CyPos)))
  {
  }

  /** Without the legacy column a successful step is the update of the
      network's own table; with it, of the extracted copy. */
  lemma HandleCyLayoutUpdates(nodes: Frame)
    ensures LegacyColumn !in nodes.columns && CyCol in nodes.columns ==>
      HandleCyLayoutStep(nodes) == CyUpdate(nodes, None)
    ensures LegacyColumn in nodes.columns && ExtractCyFrame(nodes).Ok? && CyCol in ExtractCyFrame(nodes).value.columns ==>
      HandleCyLayoutStep(nodes) == CyUpdate(ExtractCyFrame(nodes).value, Some(nodes))
  {
  }

  /** A legacy table that fails anywhere leaves the network's table as it was. */
  lemma LegacyFailureKeepsTable(nodes: Frame)
    requires LegacyColumn in nodes.columns && HandleCyLayoutStep(nodes).outcome.Fail?
    ensures HandleCyLayoutStep(nodes).frame == nodes
  {
  }

  /** The scaled sizes. A NaN stays NaN, and a leading NaN makes every
      size NaN (`max` keeps it). Otherwise the largest size `m` is a number:
      each number comes back as itself over `m`, the largest becomes 1, and
      sizes that are not negative end in [0, 1]. */
  lemma ScaleByMaxFacts(xs: seq<SizeValue>)
    requires ScaleByMax(xs).Ok?
    ensures var sz := ScaleByMax(xs).value;
      forall i :: 0 <= i < |xs| && xs[i].NaN? ==> sz[i].NaN?
    ensures var sz := ScaleByMax(xs).value;
      xs[0].NaN? ==> forall i :: 0 <= i < |sz| ==> sz[i].NaN?
    ensures var sz := ScaleByMax(xs).value;
      xs[0].Number? ==>
        var m := PyMax(xs).x;
        && (forall i :: 0 <= i < |xs| && xs[i].Number? ==> sz[i] == Number(xs[i].x / m))
        && (exists i :: 0 <= i < |sz| && sz[i] == Number(1.0))
        && ((forall i :: 0 <= i < |xs| && xs[i].Number? ==> xs[i].x >= 0.0) ==>
              forall i :: 0 <= i < |sz| && sz[i].Number? ==> 0.0 <= sz[i].x <= 1.0)
  {
    var sz := ScaleByMax(xs).value;
    var mv := PyMax(xs);
    assert forall i :: 0 <= i < |xs| ==> sz[i] == Divide(xs[i], mv);
    if xs[0].Number? {
      var m := mv.x;
      assert m != 0.0;
      var k :| 0 <= k < |xs| && xs[k] == mv;
      DivideTimes(mv, mv);
      assert sz[k] == Number(1.0);
      if forall i :: 0 <= i < |xs| && xs[i].Number? ==> xs[i].x >= 0.0 {
        forall i | 0 <= i < |sz| && sz[i].Number? ensures 0.0 <= sz[i].x <= 1.0 {
          DivideWithin(xs[i].x, m);
        }
      }
    }
  }

  /** A missing size beside a size of 2: `max` gives 2, the sizes written
      are 1 and NaN, and the colour of the second row then raises. */
  lemma NaNSizeRaises(col: Value)
    requires col.List?
    ensures var nodes: Frame := DataFrame({SizeColumn, CyCol}, [
        map[SizeColumn := Float(2.0), CyCol := col],
        map[SizeColumn := Null, CyCol := col]]);
      && ScaledSizes(nodes) == Ok([Number(1.0), NaN])
      && FloatColumn(ScaledSizes(nodes).value) == [Float(1.0), Null]
      && ColoredColumn(Cells(nodes, CyCol), ScaledSizes(nodes).value) == Err(ValueError("cannot convert float NaN to integer"))
  {
    var nodes: Frame := DataFrame({SizeColumn, CyCol}, [
        map[SizeColumn := Float(2.0), CyCol := col],
        map[SizeColumn := Null, CyCol := col]]);
    assert Sizes(Cells(nodes, SizeColumn)) == [Number(2.0), NaN];
    TrailingNaNSize();
    assert WithAlpha(Cells(nodes, CyCol)[1], NaN).Err?;
  }

  /** A NaN after a number: `max` keeps the number and the NaN stays. */
  lemma TrailingNaNSize()
    ensures ScaleByMax([Number(2.0), NaN]) == Ok([Number(1.0), NaN])
  {
    var xs := [Number(2.0), NaN];
    assert PyMax(xs) == Number(2.0) by {
      assert PyMax(xs[..1]) == Number(2.0);
    }
    DivideTimes(Number(2.0), Number(2.0));
    var sz := ScaleByMax(xs).value;
    assert sz[0] == Number(1.0) && sz[1] == NaN;
    assert sz == [Number(1.0), NaN];
  }

  /** A leading missing size: `max` keeps NaN, so every size becomes NaN. */
  lemma LeadingNaNSize()
    ensures ScaleByMax([NaN, Number(2.0)]) == Ok([NaN, NaN])
  {
    var xs := [NaN, Number(2.0)];
    assert PyMax(xs).NaN?;
    var sz := ScaleByMax(xs).value;
    assert sz[0] == NaN && sz[1] == NaN;
    assert sz == [NaN, NaN];
  }

  /** Bools are numbers to Python: `True` and `False` scale to 1 and 0. */
  lemma BoolSizesScale()
    ensures var nodes: Frame := DataFrame({SizeColumn}, [
        map[SizeColumn := Bool(true)],
        map[SizeColumn := Bool(false)]]);
      ScaledSizes(nodes) == Ok([Number(1.0), Number(0.0)])
  {
    var nodes: Frame := DataFrame({SizeColumn}, [
        map[SizeColumn := Bool(true)],
        map[SizeColumn := Bool(false)]]);
    var xs := Sizes(Cells(nodes, SizeColumn));
    assert xs == [Number(1.0), Number(0.0)];
    assert PyMax(xs) == Number(1.0) by {
      assert PyMax(xs[..1]) == Number(1.0);
    }
    DivideTimes(Number(1.0), Number(1.0));
    var sz := ScaledSizes(nodes).value;
    assert sz[0] == Number(1.0) && sz[1] == Number(0.0);
    assert sz == [Number(1.0), Number(0.0)];
  }

  /** A number over a non-zero number, times that number, is the number. */
  lemma DivideTimes(a: SizeValue, m: SizeValue)
    requires a.Number? && m.Number? && m.x != 0.0
    ensures Divide(a, m).Number? && Divide(a, m).x * m.x == a.x
    ensures a == m ==> Divide(a, m) == Number(1.0)
  {
    var q := a.x / m.x;
    assert q * m.x == a.x;
  }

  /** `int(255 * size)`: 255 for the largest node, 127 for one of half its
      size (truncation), and always within 0 .. 255. */
  lemma AlphaFacts(size: real)
    ensures Alpha(1.0) == 255 && Alpha(0.5) == 127
    ensures 0.0 <= size <= 1.0 ==> 0 <= Alpha(size) <= 255
  {
  }

  /** After a successful `handle_cy_layout` step on a table with `cy_col`,
      each row's size is its old size over the largest, its colour ends with
      the alpha of that size, and `cy_pos` is the padded normalised vector. */
  lemma CyUpdateFacts(f1: Frame, original: Option<Frame>)
    requires CyCol in f1.columns && CyUpdate(f1, original).outcome == Pass
    ensures CyPoints(f1).Ok? && CyPosStep(f1).Ok? && ScaledSizes(CyPosStep(f1).value).Ok?
    ensures SizeColumn in f1.columns && AllSizes(Cells(f1, SizeColumn))
      && ScaledSizes(CyPosStep(f1).value) == ScaleByMax(Sizes(Cells(f1, SizeColumn)))
    ensures var f := CyUpdate(f1, original).frame;
      var sz := ScaledSizes(CyPosStep(f1).value).value;
      var vs := Values(CyPoints(f1).value);
      && |f.rows| == |f1.rows| == |vs| == |sz|
      && f.columns == f1.columns + {CyPos, SizeColumn}
      && forall i :: 0 <= i < |f1.rows| ==> CyUpdatedRow(f1.rows[i], f.rows[i], vs[i], sz[i])
  {
    CyUpdateWrites(f1, original);
    SizesBeforeWrite(f1);
    CyPosFacts(f1);
    var vs := Values(CyPoints(f1).value);
    var sz := ScaledSizes(CyPosStep(f1).value).value;
    ColoursBeforeWrite(f1, vs, sz);
    ColoredRows(Cells(f1, CyCol), sz);
    WrittenRows(f1, vs, sz, ColoredColumn(Cells(f1, CyCol), sz).value);
  }

  /** The `cy_pos` write leaves the `size` column as it was, so the sizes
      scaled are the table's own. */
  lemma SizesBeforeWrite(f1: Frame)
    requires CyPosStep(f1).Ok? && ScaledSizes(CyPosStep(f1).value).Ok?
    ensures SizeColumn in f1.columns && AllSizes(Cells(f1, SizeColumn))
      && ScaledSizes(CyPosStep(f1).value) == ScaleByMax(Sizes(Cells(f1, SizeColumn)))
  {
    var f2 := CyPosStep(f1).value;
    if SizeColumn in f1.columns {
      assert forall i :: 0 <= i < |f1.rows| ==> f2.rows[i][SizeColumn] == f1.rows[i][SizeColumn];
      assert Cells(f2, SizeColumn) == Cells(f1, SizeColumn);
    }
  }

  /** A step that passes has written `cy_pos`, then `size`, then `cy_col`. */
  lemma CyUpdateWrites(f1: Frame, original: Option<Frame>)
    requires CyCol in f1.columns && CyUpdate(f1, original).outcome == Pass
    ensures CyPoints(f1).Ok? && CyPosStep(f1).Ok? && ScaledSizes(CyPosStep(f1).value).Ok?
    ensures CyPosStep(f1).value == SetSeries(f1, CyPos, PadColumn(Values(CyPoints(f1).value)))
    ensures var sz := ScaledSizes(CyPosStep(f1).value).value;
      var f3 := SetSeries(CyPosStep(f1).value, SizeColumn, FloatColumn(sz));
      && ColoredColumn(Cells(f3, CyCol), sz).Ok?
      && CyUpdate(f1, original).frame == SetSeries(f3, CyCol, ColoredColumn(Cells(f3, CyCol), sz).value)
  {
  }

  /** The three columns written by a successful step, row by row: `cols`
      holds each row's colour list extended by the alpha of its size. */
  lemma WrittenRows(f1: Frame, vs: seq<Point>, sz: seq<SizeValue>, cols: seq<Value>)
    requires CyCol in f1.columns && |vs| == |sz| == |cols| == |f1.rows|
    requires forall i :: 0 <= i < |f1.rows| ==>
      sz[i].Number? && f1.rows[i][CyCol].List?
      && cols[i] == List(f1.rows[i][CyCol].items + [Int(Alpha(sz[i].x))])
    ensures var f := SetSeries(SetSeries(SetSeries(f1, CyPos, PadColumn(vs)), SizeColumn, FloatColumn(sz)), CyCol, cols);
      && f.columns == f1.columns + {CyPos, SizeColumn}
      && forall i :: 0 <= i < |f1.rows| ==> CyUpdatedRow(f1.rows[i], f.rows[i], vs[i], sz[i])
  {
    var f2 := SetSeries(f1, CyPos, PadColumn(vs));
    var f3 := SetSeries(f2, SizeColumn, FloatColumn(sz));
    var f := SetSeries(f3, CyCol, cols);
    forall i | 0 <= i < |f1.rows| ensures CyUpdatedRow(f1.rows[i], f.rows[i], vs[i], sz[i]) {
      assert f3.rows[i][SizeColumn] == FloatColumn(sz)[i] == Float(sz[i].x);
    }
  }

  /** A colour column that passes, row by row: every size is a number and
      every colour a list, extended by that size's alpha. */
  lemma ColoredRows(cells: seq<Value>, sizes: seq<SizeValue>)
    requires |cells| == |sizes| && ColoredColumn(cells, sizes).Ok?
    ensures forall i :: 0 <= i < |cells| ==>
      sizes[i].Number? && cells[i].List?
      && ColoredColumn(cells, sizes).value[i] == List(cells[i].items + [Int(Alpha(sizes[i].x))])
  {
    forall i | 0 <= i < |cells|
      ensures sizes[i].Number? && cells[i].List?
    {
      assert WithAlpha(cells[i], sizes[i]).Ok?;
    }
  }

  /** The `size` and `cy_pos` writes leave `cy_col` as it was. */
  lemma ColoursBeforeWrite(f1: Frame, vs: seq<Point>, sz: seq<SizeValue>)
    requires CyCol in f1.columns
    ensures var f3 := SetSeries(SetSeries(f1, CyPos, PadColumn(vs)), SizeColumn, FloatColumn(sz));
      CyCol in f3.columns && Cells(f3, CyCol) == Cells(f1, CyCol)
  {
  }

  /** Row `after` is row `before` with the padded vector `v` as `cy_pos`, the
      scaled size `size`, and the colour list extended by its alpha; every
      other cell is kept. */
  predicate CyUpdatedRow(before: Row, after: Row, v: Point, size: SizeValue)
  {
    && size.Number?
    && CyCol in before && before[CyCol].List?
    && CyPos in after && after[CyPos] == PointValue(v + [0.0])
    && SizeColumn in after && after[SizeColumn] == Float(size.x)
    && CyCol in after && after[CyCol] == List(before[CyCol].items + [Int(Alpha(size.x))])
    && forall k :: k in before && k !in {CyPos, CyCol, SizeColumn} ==> k in after && after[k] == before[k]
  }

  /** `cy_pos` after the step: for every row, the row's vector normalised
      over x and y, with those two in [0, 1], and a zero z. */
  lemma CyPosFacts(nodes: Frame)
    requires CyPoints(nodes).Ok?
    ensures var vs := Values(CyPoints(nodes).value);
      && |vs| == |nodes.rows|
      && forall i :: 0 <= i < |vs| ==> |vs[i]| >= 2 && 0.0 <= vs[i][0] <= 1.0 && 0.0 <= vs[i][1] <= 1.0
  {
    var coords := Zip(Range(|nodes.rows|), Points(Cells(nodes, CyPos)));
    NormalizedBounds(coords, 2, 0);
    NormalizedBounds(coords, 2, 1);
  }

  // ----- the links of calculate_layouts -------------------------------------------------

  /** The uniform link colour `(200, 200, 200, 255)`. */
  const LinkColour := List([Int(200), Int(200), Int(200), Int(255)])
  const DroppedLinkColumns := ["s_suid", "e_suid"]

  /** The loop at lines 173-175: each listed column that is present is dropped. */
  function DropIfPresent(f: Frame, cs: seq<string>): (r: Frame)
    ensures r.columns == f.columns - (set c | c in cs) && |r.rows| == |f.rows|
    ensures forall i, k :: 0 <= i < |f.rows| && k in r.columns ==> r.rows[i][k] == f.rows[i][k]
    decreases |cs|
  {
    if cs == [] then f
    else
      var t := cs[..|cs| - 1];
      var g := DropIfPresent(f, t);
      assert (set c | c in cs) == (set c | c in t) + {cs[|cs| - 1]} by {
        assert cs == t + [cs[|cs| - 1]];
      }
      if cs[|cs| - 1] in g.columns then DropColumn(g, cs[|cs| - 1]) else g
  }

  /** Lines 170-176: one colour per edge of the graph (pandas wants one per
      row), then the two suid columns go. */
  function LinksStep(links: Frame, graph: Option<Graph>): (r: Result<Frame>)
    ensures graph.None? ==> r.Err? && r.error.TypeError?
    ensures r.Ok? ==> |r.value.rows| == |links.rows| && "all_col" in r.value.columns
    ensures r.Err? && graph.Some? ==> r.error.ValueError?
  {
    var l :- LinkCount(graph);
    var f :- SetList(links, "all_col", seq(l, _ => LinkColour));
    Ok(DropIfPresent(f, DroppedLinkColumns))
  }

  /** The links of `calculate_layouts`: every row gets the uniform colour, the
      suid columns are gone, every other column is kept; this needs as many
      edges in the graph as rows in the link table. */
  lemma LinksStepFacts(links: Frame, graph: Option<Graph>)
    ensures LinksStep(links, graph).Ok? <==> graph.Some? && |graph.value.edges| == |links.rows|
    ensures LinksStep(links, graph).Ok? ==>
      var f := LinksStep(links, graph).value;
      && f.columns == links.columns + {"all_col"} - {"s_suid", "e_suid"} && |f.rows| == |links.rows|
      && (forall i :: 0 <= i < |f.rows| ==> f.rows[i]["all_col"] == LinkColour)
      && (forall i, k :: 0 <= i < |f.rows| && k in f.columns && k != "all_col" ==> f.rows[i][k] == links.rows[i][k])
  {
    if graph.Some? && |graph.value.edges| == |links.rows| {
      var f := SetList(links, "all_col", seq(|links.rows|, _ => LinkColour)).value;
      DroppedColumns();
      var r := DropIfPresent(f, DroppedLinkColumns);
      assert "all_col" in r.columns;
    }
  }

  lemma DroppedColumns()
    ensures (set c | c in DroppedLinkColumns) == {"s_suid", "e_suid"}
  {
  }
}
