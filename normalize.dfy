/** `normalize_pos` of src/layout.py: sorts the items by node id, stacks the
    vectors into a numpy array and, axis by axis, adds `abs(min)` and divides
    by the new maximum. */
module Normalize {
  import opened Common
  import opened Graphs
  import opened PosDicts

  /** Every vector has the length of the first: what `np.array` needs to
      build a two-dimensional array. */
  predicate Uniform(vs: seq<Point>)
  {
    forall j :: 0 <= j < |vs| ==> |vs[j]| == |vs[0]|
  }

  /** What `pos[:, i]` needs for every axis `i < dim`: a two-dimensional
      array at least `dim` wide. No vectors give the one-dimensional
      `np.array([])`, which only the empty loop (`dim == 0`) leaves alone. */
  predicate Rectangular(vs: seq<Point>, dim: nat)
  {
    if |vs| == 0 then dim == 0 else dim <= |vs[0]| && Uniform(vs)
  }

  /** `pos[:, i]`. */
  function Column(vs: seq<Point>, i: nat): (c: seq<real>)
    requires forall j :: 0 <= j < |vs| ==> i < |vs[j]|
    ensures |c| == |vs| && forall j :: 0 <= j < |vs| ==> c[j] == vs[j][i]
  {
    seq(|vs|, j requires 0 <= j < |vs| => vs[j][i])
  }

  /** Python's `min` of a non-empty column. */
  function SeqMin(c: seq<real>): (m: real)
    requires |c| > 0
    ensures m in c && forall j :: 0 <= j < |c| ==> m <= c[j]
  {
    if |c| == 1 then c[0]
    else
      var m := SeqMin(c[..|c| - 1]);
      assert forall j :: 0 <= j < |c| - 1 ==> c[..|c| - 1][j] == c[j];
      if c[|c| - 1] < m then c[|c| - 1] else m
  }

  /** Python's `max` of a non-empty column. */
  function SeqMax(c: seq<real>): (m: real)
    requires |c| > 0
    ensures m in c && forall j :: 0 <= j < |c| ==> c[j] <= m
  {
    if |c| == 1 then c[0]
    else
      var m := SeqMax(c[..|c| - 1]);
      assert forall j :: 0 <= j < |c| - 1 ==> c[..|c| - 1][j] == c[j];
      if c[|c| - 1] > m then c[|c| - 1] else m
  }

  /** Extending a prefix by one element. */
  lemma SeqMinStep(c: seq<real>, j: nat)
    requires 1 <= j < |c|
    ensures SeqMin(c[..j + 1]) == if c[j] < SeqMin(c[..j]) then c[j] else SeqMin(c[..j])
  {
    assert c[..j + 1][..j] == c[..j];
  }

  lemma SeqMaxStep(c: seq<real>, j: nat)
    requires 1 <= j < |c|
    ensures SeqMax(c[..j + 1]) == if c[j] > SeqMax(c[..j]) then c[j] else SeqMax(c[..j])
  {
    assert c[..j + 1][..j] == c[..j];
  }

  function Shift(c: seq<real>, a: real): (s: seq<real>)
    ensures |s| == |c| && forall j :: 0 <= j < |c| ==> s[j] == c[j] + a
  {
    seq(|c|, j requires 0 <= j < |c| => c[j] + a)
  }

  /** What line 352 adds to an axis: `abs(min(pos[:, i]))`. */
  function AxisShift(c: seq<real>): real
    requires |c| > 0
  {
    Abs(SeqMin(c))
  }

  /** What line 353 divides an axis by: its maximum after the shift. */
  function AxisDivisor(c: seq<real>): real
    requires |c| > 0
  {
    SeqMax(Shift(c, AxisShift(c)))
  }

  /** One axis after lines 352-353. */
  function ScaleAxis(c: seq<real>): (s: seq<real>)
    requires |c| > 0 && AxisDivisor(c) != 0.0
    ensures |s| == |c|
  {
    seq(|c|, j requires 0 <= j < |c| => (c[j] + AxisShift(c)) / AxisDivisor(c))
  }

  /** Some axis below `dim` has a zero divisor. */
  predicate HasZeroAxis(vs: seq<Point>, dim: nat)
    requires Rectangular(vs, dim)
  {
    exists i | 0 <= i < dim :: AxisDivisor(Column(vs, i)) == 0.0
  }

  /** The array after the loop at lines 351-353: axes below `dim` scaled,
      the others as they were. */
  function NormalizedValues(vs: seq<Point>, dim: nat): (r: seq<Point>)
    requires Rectangular(vs, dim) && !HasZeroAxis(vs, dim)
    ensures |r| == |vs| && forall j :: 0 <= j < |vs| ==> |r[j]| == |vs[j]|
  {
    seq(|vs|, j requires 0 <= j < |vs| =>
      seq(|vs[j]|, c requires 0 <= c < |vs[j]| =>
        if c < dim then ScaleAxis(Column(vs, c))[j] else vs[j][c]))
  }

  /** `normalize_pos(layout, dim)`. An empty layout gives a one-dimensional
      array that `pos[:, 0]` cannot index (IndexError), vectors of unequal
      length give no array at all (ValueError), and vectors shorter than
      `dim` have no axis `dim - 1` (IndexError). An axis whose divisor is
      zero, where numpy would produce inf/nan, is reported as ZeroDivision. */
  function Normalized(layout: PosDict, dim: nat): (r: Result<PosDict>)
    ensures r.Ok? ==> |r.value| == |layout|
    ensures r.Err? ==> r.error.IndexError? || r.error.ValueError? || r.error.ZeroDivision?
    ensures layout == [] ==> (r.Ok? <==> dim == 0)
  {
    var items := SortByKey(layout);
    var vs := Values(items);
    if |vs| == 0 && dim > 0 then Err(IndexError("too many indices for array"))
    else if !Uniform(vs) then Err(ValueError("inhomogeneous shape"))
    else if !Rectangular(vs, dim) then Err(IndexError("index out of bounds for axis 1"))
    else if HasZeroAxis(vs, dim) then Err(ZeroDivision("an axis has maximum 0 after the shift"))
    else Ok(Zip(Keys(items), NormalizedValues(vs, dim)))
  }

  // ----- the numpy array and the loop over axes -------------------------------

  ghost function ArrayColumn(a: array2<real>, i: nat): (c: seq<real>)
    reads a
    requires i < a.Length1
    ensures |c| == a.Length0
  {
    seq(a.Length0, j requires 0 <= j < a.Length0 reads a => a[j, i])
  }

  /** `min(pos[:, i])`. */
  method ColumnMin(a: array2<real>, i: nat) returns (m: real)
    requires 0 < a.Length0 && i < a.Length1
    ensures m == SeqMin(ArrayColumn(a, i))
  {
    ghost var col := ArrayColumn(a, i);
    m := a[0, i];
    assert col[..1] == [m];
    for j := 1 to a.Length0
      invariant m == SeqMin(col[..j])
    {
      SeqMinStep(col, j);
      if a[j, i] < m {
        m := a[j, i];
      }
    }
    assert col[..a.Length0] == col;
  }

  /** `max(pos[:, i])`. */
  method ColumnMax(a: array2<real>, i: nat) returns (m: real)
    requires 0 < a.Length0 && i < a.Length1
    ensures m == SeqMax(ArrayColumn(a, i))
  {
    ghost var col := ArrayColumn(a, i);
    m := a[0, i];
    assert col[..1] == [m];
    for j := 1 to a.Length0
      invariant m == SeqMax(col[..j])
    {
      SeqMaxStep(col, j);
      if a[j, i] > m {
        m := a[j, i];
      }
    }
    assert col[..a.Length0] == col;
  }

  /** `pos[:, i] += x`. */
  method AddToColumn(a: array2<real>, i: nat, x: real)
    requires i < a.Length1
    modifies a
    ensures forall j, c :: 0 <= j < a.Length0 && 0 <= c < a.Length1 ==>
      a[j, c] == if c == i then old(a[j, c]) + x else old(a[j, c])
  {
    for j := 0 to a.Length0
      invariant forall j', c :: 0 <= j' < a.Length0 && 0 <= c < a.Length1 ==>
        a[j', c] == if c == i && j' < j then old(a[j', c]) + x else old(a[j', c])
    {
      a[j, i] := a[j, i] + x;
    }
  }

  /** `pos[:, i] /= x`. */
  method DivideColumn(a: array2<real>, i: nat, x: real)
    requires i < a.Length1 && x != 0.0
    modifies a
    ensures forall j, c :: 0 <= j < a.Length0 && 0 <= c < a.Length1 ==>
      a[j, c] == if c == i then old(a[j, c]) / x else old(a[j, c])
  {
    for j := 0 to a.Length0
      invariant forall j', c :: 0 <= j' < a.Length0 && 0 <= c < a.Length1 ==>
        a[j', c] == if c == i && j' < j then old(a[j', c]) / x else old(a[j', c])
    {
      a[j, i] := a[j, i] / x;
    }
  }

  /** `np.array(vs)` for a rectangular `vs`. */
  method ToArray(vs: seq<Point>, dim: nat) returns (a: array2<real>)
    requires Rectangular(vs, dim)
    ensures fresh(a) && a.Length0 == |vs| && (|vs| > 0 ==> a.Length1 == |vs[0]|)
    ensures forall j, c :: 0 <= j < a.Length0 && 0 <= c < a.Length1 ==> a[j, c] == vs[j][c]
  {
    var w := if |vs| == 0 then 0 else |vs[0]|;
    a := new real[|vs|, w];
    for j := 0 to |vs|
      invariant forall j', c :: 0 <= j' < j && 0 <= c < w ==> a[j', c] == vs[j'][c]
    {
      for c := 0 to w
        invariant forall j', c' :: 0 <= j' < j && 0 <= c' < w ==> a[j', c'] == vs[j'][c']
        invariant forall c' :: 0 <= c' < c ==> a[j, c'] == vs[j][c']
      {
        a[j, c] := vs[j][c];
      }
    }
  }

  /** `list(pos)`: the rows of the array. */
  method Rows(a: array2<real>) returns (rs: seq<Point>)
    ensures |rs| == a.Length0
    ensures forall j :: 0 <= j < a.Length0 ==> |rs[j]| == a.Length1 && forall c :: 0 <= c < a.Length1 ==> rs[j][c] == a[j, c]
  {
    rs := [];
    for j := 0 to a.Length0
      invariant |rs| == j
      invariant forall j' :: 0 <= j' < j ==> |rs[j']| == a.Length1 && forall c :: 0 <= c < a.Length1 ==> rs[j'][c] == a[j', c]
    {
      var row := seq(a.Length1, c requires 0 <= c < a.Length1 reads a => a[j, c]);
      rs := rs + [row];
    }
  }

  /** One iteration of the loop at lines 351-353, on axis `i` holding `col`;
      `ok` is false when the divisor is zero. */
  method ScaleColumn(a: array2<real>, i: nat, ghost col: seq<real>) returns (ok: bool)
    requires 0 < a.Length0 && i < a.Length1 && ArrayColumn(a, i) == col
    modifies a
    ensures ok == (AxisDivisor(col) != 0.0)
    ensures ok ==> forall j :: 0 <= j < a.Length0 ==> a[j, i] == ScaleAxis(col)[j]
    ensures forall j, c :: 0 <= j < a.Length0 && 0 <= c < a.Length1 && c != i ==> a[j, c] == old(a[j, c])
  {
    ghost var shifted := Shift(col, AxisShift(col));
    var lo := ColumnMin(a, i);
    AddToColumn(a, i, Abs(lo));
    assert forall j :: 0 <= j < a.Length0 ==> a[j, i] == shifted[j];
    assert ArrayColumn(a, i) == shifted;
    var hi := ColumnMax(a, i);
    assert hi == AxisDivisor(col);
    ok := hi != 0.0;
    if ok {
      DivideColumn(a, i, hi);
      assert forall j :: 0 <= j < a.Length0 ==> a[j, i] == shifted[j] / hi;
    }
  }

  /** `normalize_pos` as the source runs it: one pass per axis over the array. */
  method NormalizePos(layout: PosDict, dim: nat) returns (r: Result<PosDict>)
    ensures r == Normalized(layout, dim)
  {
    var items := SortByKey(layout);
    var vs := Values(items);
    if |vs| == 0 && dim > 0 {
      return Err(IndexError("too many indices for array"));
    }
    if !Uniform(vs) {
      return Err(ValueError("inhomogeneous shape"));
    }
    if !Rectangular(vs, dim) {
      return Err(IndexError("index out of bounds for axis 1"));
    }
    var pos := ToArray(vs, dim);
    var ok := ScaleAxes(pos, vs, dim);
    if !ok {
      return Err(ZeroDivision("an axis has maximum 0 after the shift"));
    }
    var rows := Rows(pos);
    RowsNormalized(rows, vs, dim);
    r := Ok(Zip(Keys(items), rows));
  }

  /** The loop at lines 351-353 over an array holding `vs`. */
  method ScaleAxes(pos: array2<real>, ghost vs: seq<Point>, dim: nat) returns (ok: bool)
    requires Rectangular(vs, dim) && pos.Length0 == |vs| && (|vs| > 0 ==> pos.Length1 == |vs[0]|)
    requires forall j, c :: 0 <= j < pos.Length0 && 0 <= c < pos.Length1 ==> pos[j, c] == vs[j][c]
    modifies pos
    ensures ok <==> forall c :: 0 <= c < dim ==> AxisDivisor(Column(vs, c)) != 0.0
    ensures ok ==> forall j, c :: 0 <= j < pos.Length0 && 0 <= c < dim ==> pos[j, c] == ScaleAxis(Column(vs, c))[j]
    ensures ok ==> forall j, c :: 0 <= j < pos.Length0 && dim <= c < pos.Length1 ==> pos[j, c] == vs[j][c]
  {
    var n, w := pos.Length0, pos.Length1;
    for i := 0 to dim
      invariant forall c :: 0 <= c < i ==> AxisDivisor(Column(vs, c)) != 0.0
      invariant forall j, c :: 0 <= j < n && 0 <= c < i ==> pos[j, c] == ScaleAxis(Column(vs, c))[j]
      invariant forall j, c :: 0 <= j < n && i <= c < w ==> pos[j, c] == vs[j][c]
    {
      ghost var col := Column(vs, i);
      ArrayColumnOf(pos, vs, i);
      ok := ScaleColumn(pos, i, col);
      if !ok {
        assert AxisDivisor(Column(vs, i)) == 0.0;
        return;
      }
    }
    ok := true;
  }

  lemma ArrayColumnOf(a: array2<real>, vs: seq<Point>, i: nat)
    requires a.Length0 == |vs| && i < a.Length1 && forall j :: 0 <= j < |vs| ==> i < |vs[j]|
    requires forall j :: 0 <= j < a.Length0 ==> a[j, i] == vs[j][i]
    ensures ArrayColumn(a, i) == Column(vs, i)
  {
  }

  /** The rows read back from the scaled array are the normalised values. */
  lemma RowsNormalized(rows: seq<Point>, vs: seq<Point>, dim: nat)
    requires Rectangular(vs, dim) && !HasZeroAxis(vs, dim) && |rows| == |vs|
    requires forall j :: 0 <= j < |vs| ==> |rows[j]| == |vs[0]|
    requires forall j, c :: 0 <= j < |vs| && 0 <= c < dim ==> rows[j][c] == ScaleAxis(Column(vs, c))[j]
    requires forall j, c :: 0 <= j < |vs| && dim <= c < |vs[0]| ==> rows[j][c] == vs[j][c]
    ensures rows == NormalizedValues(vs, dim)
  {
    ghost var nv := NormalizedValues(vs, dim);
    forall j | 0 <= j < |vs| ensures rows[j] == nv[j] {
      assert |rows[j]| == |nv[j]|;
      forall c | 0 <= c < |rows[j]| ensures rows[j][c] == nv[j][c] { }
    }
  }

  // ----- what one axis looks like afterwards ----------------------------------

  lemma DivideWithin(x: real, m: real)
    requires 0.0 <= x <= m && m > 0.0
    ensures 0.0 <= x / m <= 1.0
    ensures x == m ==> x / m == 1.0
    ensures x > 0.0 ==> x / m > 0.0
  {
    assert x / m * m == x;
  }

  /** Every shifted value is non-negative and at most the divisor, which is
      one of them. */
  lemma ShiftedWithinDivisor(c: seq<real>)
    requires |c| > 0
    ensures forall j :: 0 <= j < |c| ==> 0.0 <= c[j] + AxisShift(c) <= AxisDivisor(c)
    ensures exists j :: 0 <= j < |c| && c[j] + AxisShift(c) == AxisDivisor(c)
  {
    var sh := Shift(c, AxisShift(c));
    assert forall j :: 0 <= j < |c| ==> sh[j] <= AxisDivisor(c);
    var k :| 0 <= k < |sh| && sh[k] == AxisDivisor(c);
  }

  /** The divisor is zero exactly when the axis is constant at a value <= 0
      (a constant positive axis becomes all 1). */
  lemma AxisDivisorZero(c: seq<real>)
    requires |c| > 0
    ensures AxisDivisor(c) == 0.0 <==> SeqMin(c) <= 0.0 && SeqMax(c) == SeqMin(c)
  {
    ShiftedWithinDivisor(c);
    var mn, mx := SeqMin(c), SeqMax(c);
    var k :| 0 <= k < |c| && c[k] + AxisShift(c) == AxisDivisor(c);
    if AxisDivisor(c) == 0.0 {
      var jx :| 0 <= jx < |c| && c[jx] == mx;
      var jm :| 0 <= jm < |c| && c[jm] == mn;
      assert c[jx] + AxisShift(c) <= 0.0;
      assert c[jm] + AxisShift(c) >= 0.0;
    }
    if mn <= 0.0 && mx == mn {
      assert c[k] == mn;
    }
  }

  /** Line 352-353 leave every value of a scaled axis in [0, 1] and its
      largest at exactly 1. */
  lemma ScaleAxisBounds(c: seq<real>)
    requires |c| > 0 && AxisDivisor(c) != 0.0
    ensures forall j :: 0 <= j < |c| ==> 0.0 <= ScaleAxis(c)[j] <= 1.0
    ensures exists j :: 0 <= j < |c| && ScaleAxis(c)[j] == 1.0
  {
    ShiftedWithinDivisor(c);
    var m, s := AxisDivisor(c), ScaleAxis(c);
    forall j | 0 <= j < |c| ensures 0.0 <= s[j] <= 1.0 {
      assert s[j] == (c[j] + AxisShift(c)) / m;
      DivideWithin(c[j] + AxisShift(c), m);
    }
    var k :| 0 <= k < |c| && c[k] + AxisShift(c) == m;
    assert s[k] == (c[k] + AxisShift(c)) / m;
    DivideWithin(c[k] + AxisShift(c), m);
  }

  /** Because the shift is `abs(min)`, a scaled axis reaches 0 exactly when
      its minimum was <= 0; a positive axis stays away from 0. */
  lemma ScaleAxisZero(c: seq<real>)
    requires |c| > 0 && AxisDivisor(c) != 0.0
    ensures (exists j :: 0 <= j < |c| && ScaleAxis(c)[j] == 0.0) <==> SeqMin(c) <= 0.0
  {
    if SeqMin(c) <= 0.0 {
      MinimumBecomesZero(c);
    } else {
      PositiveAxisStaysPositive(c);
    }
  }

  lemma MinimumBecomesZero(c: seq<real>)
    requires |c| > 0 && AxisDivisor(c) != 0.0 && SeqMin(c) <= 0.0
    ensures exists j :: 0 <= j < |c| && ScaleAxis(c)[j] == 0.0
  {
    var k :| 0 <= k < |c| && c[k] == SeqMin(c);
    assert c[k] + AxisShift(c) == 0.0;
    ScaleAxisAt(c, k);
    assert ScaleAxis(c)[k] == 0.0 / AxisDivisor(c);
  }

  lemma PositiveAxisStaysPositive(c: seq<real>)
    requires |c| > 0 && AxisDivisor(c) != 0.0 && SeqMin(c) > 0.0
    ensures forall j :: 0 <= j < |c| ==> ScaleAxis(c)[j] > 0.0
  {
    forall j | 0 <= j < |c| ensures ScaleAxis(c)[j] > 0.0 {
      PositiveStaysPositiveAt(c, j);
    }
  }

  lemma PositiveStaysPositiveAt(c: seq<real>, j: nat)
    requires |c| > 0 && AxisDivisor(c) != 0.0 && SeqMin(c) > 0.0 && j < |c|
    ensures ScaleAxis(c)[j] > 0.0
  {
    ShiftedPositive(c, j);
    ShiftedWithinDivisor(c);
    ScaleAxisAt(c, j);
    QuotientPositive(c[j] + AxisShift(c), AxisDivisor(c));
  }

  lemma ShiftedPositive(c: seq<real>, j: nat)
    requires |c| > 0 && SeqMin(c) > 0.0 && j < |c|
    ensures c[j] + AxisShift(c) > 0.0
  {
  }

  lemma QuotientPositive(x: real, m: real)
    requires 0.0 < x <= m
    ensures x / m > 0.0
  {
    DivideWithin(x, m);
  }

  lemma ScaleAxisAt(c: seq<real>, j: nat)
    requires |c| > 0 && AxisDivisor(c) != 0.0 && j < |c|
    ensures ScaleAxis(c)[j] == (c[j] + AxisShift(c)) / AxisDivisor(c)
  {
  }

  /** An axis that already has minimum 0 and maximum 1 is left as it is:
      the shift is 0 and the divisor 1. */
  lemma ScaleAxisFixpoint(c: seq<real>)
    requires |c| > 0 && SeqMin(c) == 0.0 && SeqMax(c) == 1.0
    ensures AxisDivisor(c) == 1.0
    ensures ScaleAxis(c) == c
  {
    assert AxisShift(c) == 0.0;
    assert Shift(c, 0.0) == c;
    assert AxisDivisor(c) == 1.0;
    forall j | 0 <= j < |c| ensures ScaleAxis(c)[j] == c[j] {
      ScaleAxisAt(c, j);
    }
  }

  // ----- what normalize_pos returns -------------------------------------------

  /** A successful result pairs the sorted keys with the scaled array. */
  lemma NormalizedShape(layout: PosDict, dim: nat)
    requires Normalized(layout, dim).Ok?
    ensures var vs := Values(SortByKey(layout));
      && Rectangular(vs, dim) && !HasZeroAxis(vs, dim)
      && Normalized(layout, dim).value == Zip(Keys(SortByKey(layout)), NormalizedValues(vs, dim))
  {
  }

  /** Each axis below `dim` of the result is that axis of the key-sorted
      input, scaled; the other coordinates are copied, and every vector keeps
      its length. */
  lemma NormalizedColumns(layout: PosDict, dim: nat)
    requires Normalized(layout, dim).Ok?
    ensures var vs := Values(SortByKey(layout));
      var r := Normalized(layout, dim).value;
      && Rectangular(vs, dim) && !HasZeroAxis(vs, dim)
      && |r| == |vs| && Keys(r) == Keys(SortByKey(layout))
      && (forall j :: 0 <= j < |r| ==> |r[j].1| == |vs[j]|)
      && (forall j, c :: 0 <= j < |r| && 0 <= c < dim ==> r[j].1[c] == ScaleAxis(Column(vs, c))[j])
      && (forall j, c :: 0 <= j < |r| && dim <= c < |vs[j]| ==> r[j].1[c] == vs[j][c])
  {
    NormalizedShape(layout, dim);
    var items := SortByKey(layout);
    var vs := Values(items);
    NormalizedValuesAt(vs, dim);
    ZipSameLength(Keys(items), NormalizedValues(vs, dim));
  }

  lemma NormalizedValuesAt(vs: seq<Point>, dim: nat)
    requires Rectangular(vs, dim) && !HasZeroAxis(vs, dim)
    ensures var nv := NormalizedValues(vs, dim);
      && (forall j, c :: 0 <= j < |vs| && 0 <= c < dim ==> nv[j][c] == ScaleAxis(Column(vs, c))[j])
      && (forall j, c :: 0 <= j < |vs| && dim <= c < |vs[j]| ==> nv[j][c] == vs[j][c])
  {
  }

  lemma ZipSameLength(ks: seq<NodeId>, vs: seq<Point>)
    requires |ks| == |vs|
    ensures var r := Zip(ks, vs);
      |r| == |vs| && Keys(r) == ks && forall j :: 0 <= j < |r| ==> r[j].1 == vs[j]
  {
    assert Keys(Zip(ks, vs)) == ks;
  }

  /** `normalize_pos` keeps the items' keys, each once, and orders them by key. */
  lemma NormalizedKeys(layout: PosDict, dim: nat)
    requires IsDict(layout) && Normalized(layout, dim).Ok?
    ensures var r := Normalized(layout, dim).value;
      KeySet(r) == KeySet(layout) && StrictlySorted(r) && |r| == |layout|
  {
    NormalizedShape(layout, dim);
    SortByKeyIsDict(layout);
    var items := SortByKey(layout);
    ZipSameKeys(items, NormalizedValues(Values(items), dim));
  }

  /** Pairing the keys of `items` with as many new vectors keeps the key set
      and the key order. */
  lemma ZipSameKeys(items: PosDict, nv: seq<Point>)
    requires |nv| == |items|
    ensures var r := Zip(Keys(items), nv);
      && KeySet(r) == KeySet(items) && |r| == |items|
      && (StrictlySorted(items) ==> StrictlySorted(r))
  {
    var r := Zip(Keys(items), nv);
    forall k | k in KeySet(r) ensures k in KeySet(items) {
      var p :| p in r && p.0 == k;
      var j :| 0 <= j < |r| && r[j] == p;
      assert items[j] in items;
    }
    forall k | k in KeySet(items) ensures k in KeySet(r) {
      var p :| p in items && p.0 == k;
      var j :| 0 <= j < |items| && items[j] == p;
      assert r[j] in r;
    }
  }

  /** Every axis below `dim` of the result lies in [0, 1] and reaches 1. */
  lemma NormalizedBounds(layout: PosDict, dim: nat, c: nat)
    requires Normalized(layout, dim).Ok? && c < dim
    ensures var r := Normalized(layout, dim).value;
      && (forall j :: 0 <= j < |r| ==> c < |r[j].1| && 0.0 <= r[j].1[c] <= 1.0)
      && (exists j :: 0 <= j < |r| && r[j].1[c] == 1.0)
  {
    NormalizedColumns(layout, dim);
    var vs := Values(SortByKey(layout));
    var col := Column(vs, c);
    var r := Normalized(layout, dim).value;
    ScaleAxisBounds(col);
    var k :| 0 <= k < |col| && ScaleAxis(col)[k] == 1.0;
    assert r[k].1[c] == 1.0;
  }

  /** An axis below `dim` of the result reaches 0 exactly when some input
      vector had a value <= 0 on it. */
  lemma NormalizedZero(layout: PosDict, dim: nat, c: nat)
    requires Normalized(layout, dim).Ok? && c < dim
    ensures var r := Normalized(layout, dim).value;
      (exists j :: 0 <= j < |r| && r[j].1[c] == 0.0) <==>
      (exists p :: p in layout && c < |p.1| && p.1[c] <= 0.0)
  {
    NormalizedShape(layout, dim);
    var items := SortByKey(layout);
    ItemsZero(items, dim, c);
    SortedSameItems(layout);
    SameItemsNonPositive(items, layout, c);
  }

  /** `NormalizedZero` on the sorted items. */
  lemma ItemsZero(items: PosDict, dim: nat, c: nat)
    requires Rectangular(Values(items), dim) && !HasZeroAxis(Values(items), dim) && c < dim
    ensures var r := Zip(Keys(items), NormalizedValues(Values(items), dim));
      (exists j :: 0 <= j < |r| && r[j].1[c] == 0.0) <==>
      (exists p :: p in items && c < |p.1| && p.1[c] <= 0.0)
  {
    var vs := Values(items);
    var col := Column(vs, c);
    NormalizedValuesAt(vs, dim);
    ZipSameLength(Keys(items), NormalizedValues(vs, dim));
    ScaleAxisZero(col);
    SameAxisZero(Zip(Keys(items), NormalizedValues(vs, dim)), ScaleAxis(col), c);
    ColumnNonPositive(items, c);
  }

  /** A zero on axis `c` of `r` is a zero of `s`, the values on that axis. */
  lemma SameAxisZero(r: PosDict, s: seq<real>, c: nat)
    requires |r| == |s| && forall j :: 0 <= j < |r| ==> c < |r[j].1| && r[j].1[c] == s[j]
    ensures (exists j :: 0 <= j < |r| && r[j].1[c] == 0.0) <==> (exists j :: 0 <= j < |s| && s[j] == 0.0)
  {
    if j :| 0 <= j < |s| && s[j] == 0.0 {
      assert r[j].1[c] == 0.0;
    }
  }

  lemma SameItemsNonPositive(d: PosDict, e: PosDict, c: nat)
    requires forall x :: x in d <==> x in e
    ensures (exists p :: p in d && c < |p.1| && p.1[c] <= 0.0) <==> (exists p :: p in e && c < |p.1| && p.1[c] <= 0.0)
  {
  }

  /** The smallest value on axis `c` is <= 0 exactly when some item has a
      value <= 0 there. */
  lemma ColumnNonPositive(d: PosDict, c: nat)
    requires |d| > 0 && forall j :: 0 <= j < |d| ==> c < |d[j].1|
    ensures SeqMin(Column(Values(d), c)) <= 0.0 <==> exists p :: p in d && c < |p.1| && p.1[c] <= 0.0
  {
    var vs := Values(d);
    var col := Column(vs, c);
    if SeqMin(col) <= 0.0 {
      var k :| 0 <= k < |col| && col[k] == SeqMin(col);
      assert d[k] in d;
    }
    if p :| p in d && c < |p.1| && p.1[c] <= 0.0 {
      var k :| 0 <= k < |d| && d[k] == p;
      assert col[k] == vs[k][c];
    }
  }

  /** The outcomes of `normalize_pos`, by the shape of the sorted values. */
  lemma NormalizedCases(layout: PosDict, dim: nat)
    ensures var items := SortByKey(layout);
      var vs := Values(items);
      && (layout == [] && dim > 0 ==> Normalized(layout, dim).Err? && Normalized(layout, dim).error.IndexError?)
      && (layout == [] && dim == 0 ==> Normalized(layout, dim) == Ok([]))
      && (!Uniform(vs) ==> Normalized(layout, dim).Err? && Normalized(layout, dim).error.ValueError?)
      && (layout != [] && Uniform(vs) && !Rectangular(vs, dim) ==> Normalized(layout, dim).Err? && Normalized(layout, dim).error.IndexError?)
      && (Rectangular(vs, dim) && HasZeroAxis(vs, dim) ==> Normalized(layout, dim).Err? && Normalized(layout, dim).error.ZeroDivision?)
      && (Rectangular(vs, dim) && !HasZeroAxis(vs, dim) ==> Normalized(layout, dim) == Ok(Zip(Keys(items), NormalizedValues(vs, dim))))
  {
  }

  /** A layout whose every axis below `dim` already has minimum 0 and
      maximum 1 comes back unchanged, apart from the sort by key. */
  lemma NormalizedFixpoint(layout: PosDict, dim: nat)
    requires Rectangular(Values(SortByKey(layout)), dim)
    requires forall c :: 0 <= c < dim ==>
      SeqMin(Column(Values(SortByKey(layout)), c)) == 0.0 && SeqMax(Column(Values(SortByKey(layout)), c)) == 1.0
    ensures Normalized(layout, dim) == Ok(SortByKey(layout))
  {
    var items := SortByKey(layout);
    FixpointAxes(Values(items), dim);
    NormalizedCases(layout, dim);
    ZipKeysValues(items);
  }

  /** Axes already spanning [0, 1] have divisor 1 and are left as they are. */
  lemma FixpointAxes(vs: seq<Point>, dim: nat)
    requires Rectangular(vs, dim)
    requires forall c :: 0 <= c < dim ==> SeqMin(Column(vs, c)) == 0.0 && SeqMax(Column(vs, c)) == 1.0
    ensures !HasZeroAxis(vs, dim) && NormalizedValues(vs, dim) == vs
  {
    forall c | 0 <= c < dim ensures AxisDivisor(Column(vs, c)) == 1.0 && ScaleAxis(Column(vs, c)) == Column(vs, c) {
      ScaleAxisFixpoint(Column(vs, c));
    }
    FixpointValues(vs, dim);
  }

  lemma FixpointValues(vs: seq<Point>, dim: nat)
    requires Rectangular(vs, dim) && !HasZeroAxis(vs, dim)
    requires forall c :: 0 <= c < dim ==> ScaleAxis(Column(vs, c)) == Column(vs, c)
    ensures NormalizedValues(vs, dim) == vs
  {
    var nv := NormalizedValues(vs, dim);
    forall j | 0 <= j < |vs| ensures nv[j] == vs[j] {
      forall c | 0 <= c < |vs[j]| ensures nv[j][c] == vs[j][c] {
        if c < dim {
          assert ScaleAxis(Column(vs, c))[j] == Column(vs, c)[j];
        }
      }
    }
  }

  /** A positive axis of two values `a < b` is shifted by `a` and divided by
      `a + b`. */
  lemma ScaleTwoPositive(a: real, b: real)
    requires 0.0 < a < b
    ensures AxisDivisor([a, b]) == a + b
    ensures ScaleAxis([a, b]) == [2.0 * a / (a + b), 1.0]
  {
    var c := [a, b];
    assert c[..1] == [a];
    assert SeqMin(c) == a;
    var sh := Shift(c, a);
    assert sh == [2.0 * a, a + b];
    assert sh[..1] == [2.0 * a];
    assert SeqMax(sh) == a + b;
    assert AxisShift(c) == a;
    var sc := ScaleAxis(c);
    ScaleAxisAt(c, 0);
    ScaleAxisAt(c, 1);
    assert sc[0] == (a + a) / (a + b) == 2.0 * a / (a + b);
    DivideWithin(b + a, a + b);
    assert sc[1] == (b + a) / (a + b) == 1.0;
    assert |sc| == 2;
  }

  /** Two nodes 0 and 1 on one positive axis `a < b`. */
  lemma NormalizedPair(a: real, b: real)
    requires 0.0 < a < b
    ensures Normalized([(0, [a]), (1, [b])], 1) == Ok([(0, [2.0 * a / (a + b)]), (1, [1.0])])
  {
    var l: PosDict := [(0, [a]), (1, [b])];
    SortPair(a, b);
    var vs := Values(l);
    assert vs == [[a], [b]];
    PairValues(a, b);
    NormalizedCases(l, 1);
    var nv: seq<Point> := [[2.0 * a / (a + b)], [1.0]];
    assert Keys(l) == [0, 1];
    var z := Zip(Keys(l), nv);
    assert |z| == 2 && z[0] == (0, [2.0 * a / (a + b)]) && z[1] == (1, [1.0]);
    assert z == [(0, [2.0 * a / (a + b)]), (1, [1.0])];
  }

  lemma SortPair(a: real, b: real)
    ensures SortByKey([(0, [a]), (1, [b])]) == [(0, [a]), (1, [b])]
  {
    var l: PosDict := [(0, [a]), (1, [b])];
    assert l[1..] == [(1, [b])];
    assert SortByKey(l[1..]) == [(1, [b])];
  }

  lemma PairValues(a: real, b: real)
    requires 0.0 < a < b
    ensures Rectangular([[a], [b]], 1) && !HasZeroAxis([[a], [b]], 1)
    ensures NormalizedValues([[a], [b]], 1) == [[2.0 * a / (a + b)], [1.0]]
  {
    var vs: seq<Point> := [[a], [b]];
    assert Column(vs, 0) == [a, b];
    ScaleTwoPositive(a, b);
    assert !HasZeroAxis(vs, 1);
    var nv := NormalizedValues(vs, 1);
    assert nv[0][0] == 2.0 * a / (a + b);
    assert nv[1][0] == 1.0;
    assert |nv| == 2 && |nv[0]| == 1 && |nv[1]| == 1;
    assert nv[0] == [2.0 * a / (a + b)] && nv[1] == [1.0];
  }

  /** Normalising twice is not normalising once: two nodes on a positive axis
      `a < b` become [x, 1] with x = 2a/(a+b) < 1, and normalising again moves
      x to 2x/(x+1) (for [1, 2]: [2/3, 1], then [4/5, 1]). */
  lemma NormalizedNotIdempotent(a: real, b: real)
    requires 0.0 < a < b
    ensures var once := Normalized([(0, [a]), (1, [b])], 1);
      once.Ok? && Normalized(once.value, 1).Ok? && Normalized(once.value, 1) != once
  {
    NormalizedPair(a, b);
    var x := 2.0 * a / (a + b);
    PairRatio(a, b);
    NormalizedPair(x, 1.0);
    var y := 2.0 * x / (x + 1.0);
    RatioMoves(x);
    assert [(0, [y]), (1, [1.0])][0].1[0] != [(0, [x]), (1, [1.0])][0].1[0];
  }

  lemma PairRatio(a: real, b: real)
    requires 0.0 < a < b
    ensures 0.0 < 2.0 * a / (a + b) < 1.0
  {
    var x := 2.0 * a / (a + b);
    DivideWithin(2.0 * a, a + b);
    DivideWithin(b - a, a + b);
    DivideWithin(a + b, a + b);
    SumFractions(2.0 * a, b - a, a + b);
  }

  lemma SumFractions(p: real, q: real, m: real)
    requires m > 0.0
    ensures p / m + q / m == (p + q) / m
  {
    assert (p / m) * m == p && (q / m) * m == q && ((p + q) / m) * m == p + q;
    assert (p / m + q / m) * m == (p + q) / m * m;
  }

  lemma RatioMoves(x: real)
    requires 0.0 < x < 1.0
    ensures 2.0 * x / (x + 1.0) != x
  {
    var y := 2.0 * x / (x + 1.0);
    assert y * (x + 1.0) == 2.0 * x;
    assert x * (x + 1.0) < 2.0 * x;
  }
}
