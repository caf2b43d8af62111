/** `sample_sphere_pcd` and `sample_sphere` of src/layout.py: points sampled
    on a unit icosphere that is moved by the negated mean of a layout, one per
    node of a graph. */
module SphereSampling {
  import opened Common
  import opened Graphs
  import opened PosDicts
  import opened Foreign

  predicate AllWidth(ps: seq<Point>, w: nat)
  {
    forall j :: 0 <= j < |ps| ==> |ps[j]| == w
  }

  /** The sum of coordinate `k` over `ps`. */
  function SumAt(ps: seq<Point>, k: nat): real
    requires forall j :: 0 <= j < |ps| ==> k < |ps[j]|
  {
    if ps == [] then 0.0 else SumAt(ps[..|ps| - 1], k) + ps[|ps| - 1][k]
  }

  /** Where the icosphere's centre ends up: at the origin for an empty
      layout, otherwise translated by `-np.mean(layout, axis=0)`. A ragged
      layout cannot be averaged, and the mesh refuses a translation that is
      not a 3-vector; both raise ValueError. */
  function SphereCenter(layout: seq<Point>): (r: Result<Point>)
    ensures r.Ok? ==> |r.value| == 3
    ensures r.Err? <==> layout != [] && !AllWidth(layout, 3)
  {
    if layout == [] then Ok([0.0, 0.0, 0.0])
    else if !AllWidth(layout, 3) then Err(ValueError("the layout is not a list of 3-vectors"))
    else Ok(seq(3, k requires 0 <= k < 3 => -(SumAt(layout, k) / |layout| as real)))
  }

  /** `sample_sphere_pcd(n, layout)`: nothing for zero points, otherwise the
      points the library samples on the moved unit sphere (3 subdivisions). */
  function SampleSpherePcd(n: nat, layout: seq<Point>, e: Engines): (r: Result<seq<Point>>)
    ensures n == 0 ==> r == Ok([])
    ensures layout == [] ==> r.Ok?
    ensures r.Err? ==> n > 0 && layout != [] && r.error.ValueError?
  {
    if n == 0 then Ok([])
    else
      var center :- SphereCenter(layout);
      Ok(e.sampleSurface(Sphere(center, 1.0, 3), n))
  }

  /** `sample_sphere(G, layout)`: node i of `G` gets the i-th sampled point,
      assigned into an empty dict in node order; fewer points than nodes
      raise IndexError at the first node without one. */
  function SphereLayout(g: Graph, layout: seq<Point>, e: Engines): Result<PosDict>
  {
    var pts :- SampleSpherePcd(|g.nodes|, layout, e);
    if |pts| < |g.nodes| then Err(IndexError("fewer sampled points than nodes"))
    else Ok(Update([], Zip(g.nodes, pts)))
  }

  /** `sample_sphere` as the source runs it: one dict assignment per node. */
  method SampleSphere(g: Graph, layout: seq<Point>, e: Engines) returns (r: Result<PosDict>)
    ensures r == SphereLayout(g, layout, e)
  {
    var n := |g.nodes|;
    var pts :- SampleSpherePcd(n, layout, e);
    var d: PosDict := [];
    for i := 0 to n
      invariant i <= |pts|
      invariant d == Update([], Zip(g.nodes[..i], pts[..i]))
    {
      if i >= |pts| {
        return Err(IndexError("fewer sampled points than nodes"));
      }
      ZipSnoc(g.nodes, pts, i);
      UpdateSnoc([], Zip(g.nodes[..i], pts[..i]), (g.nodes[i], pts[i]));
      d := Assign(d, g.nodes[i], pts[i]);
    }
    assert Zip(g.nodes[..n], pts[..n]) == Zip(g.nodes, pts);
    r := Ok(d);
  }

  lemma ZipSnoc(ks: seq<NodeId>, vs: seq<Point>, i: nat)
    requires i < |ks| && i < |vs|
    ensures Zip(ks[..i + 1], vs[..i + 1]) == Zip(ks[..i], vs[..i]) + [(ks[i], vs[i])]
  {
  }

  lemma {:induction false} UpdateSnoc(d: PosDict, e: PosDict, x: (NodeId, Point))
    ensures Update(d, e + [x]) == Assign(Update(d, e), x.0, x.1)
    decreases |e|
  {
    if e == [] {
      assert [x][1..] == [];
    } else {
      assert (e + [x])[1..] == e[1..] + [x];
      UpdateSnoc(Assign(d, e[0].0, e[0].1), e[1..], x);
    }
  }

  // ----- properties ------------------------------------------------------------

  /** A successful sample gives the graph's nodes exactly, in order, node i
      holding the i-th sampled point. */
  lemma SphereLayoutKeys(g: Graph, layout: seq<Point>, e: Engines)
    requires Valid(g) && SphereLayout(g, layout, e).Ok?
    ensures var r := SphereLayout(g, layout, e).value;
      var pts := SampleSpherePcd(|g.nodes|, layout, e).value;
      && Keys(r) == g.nodes && IsDict(r) && KeySet(r) == NodeSet(g)
      && forall i :: 0 <= i < |r| ==> r[i].1 == pts[i]
  {
    var pts := SampleSpherePcd(|g.nodes|, layout, e).value;
    var z := Zip(g.nodes, pts);
    ZipIsDict(g.nodes, pts);
    ZipKeys(g.nodes, pts);
    UpdateDisjoint([], z);
    assert [] + z == z;
  }

  /** Zero nodes sample nothing and need no centre. */
  lemma SphereLayoutEmpty(g: Graph, layout: seq<Point>, e: Engines)
    requires g.nodes == []
    ensures SphereLayout(g, layout, e) == Ok([])
  {
    assert SampleSpherePcd(0, layout, e) == Ok([]);
    assert Zip([], []) == [];
  }

  /** With libraries that return what they are asked for, sampling succeeds
      for any layout of 3-vectors. */
  lemma SphereLayoutSucceeds(g: Graph, layout: seq<Point>, e: Engines)
    requires Valid(g) && Conforms(e) && AllWidth(layout, 3)
    ensures SphereLayout(g, layout, e).Ok?
    ensures |SphereLayout(g, layout, e).value| == |g.nodes|
  {
    if |g.nodes| > 0 {
      var center := SphereCenter(layout).value;
      assert |e.sampleSurface(Sphere(center, 1.0, 3), |g.nodes|)| == |g.nodes|;
    } else {
      SphereLayoutEmpty(g, layout, e);
    }
    SphereLayoutKeys(g, layout, e);
  }

  /** A layout whose points all sit at `p` gets a sphere centred at `-p`:
      the sphere is moved to the mirror image of the layout, not onto it. */
  lemma SphereCenterConstant(layout: seq<Point>, p: Point)
    requires layout != [] && |p| == 3
    requires forall j :: 0 <= j < |layout| ==> layout[j] == p
    ensures SphereCenter(layout) == Ok([-p[0], -p[1], -p[2]])
  {
    assert AllWidth(layout, 3);
    var c := SphereCenter(layout).value;
    var n := |layout| as real;
    forall k | 0 <= k < 3 ensures c[k] == -p[k] {
      SumConstant(layout, p, k);
      MeanOfConstant(n, p[k]);
    }
    assert c == [-p[0], -p[1], -p[2]];
  }

  lemma MeanOfConstant(n: real, x: real)
    requires n > 0.0
    ensures (n * x) / n == x
  {
  }

  lemma {:induction false} SumConstant(ps: seq<Point>, p: Point, k: nat)
    requires k < |p| && forall j :: 0 <= j < |ps| ==> ps[j] == p
    ensures SumAt(ps, k) == |ps| as real * p[k]
  {
    if ps != [] {
      SumConstant(ps[..|ps| - 1], p, k);
    }
  }
}
