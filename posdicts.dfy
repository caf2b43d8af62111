/** A layout's `pos`: a Python dict from node id to coordinate vector, kept as
    its list of items so that insertion order, which `dict.values()` and
    `dict.update` expose, is part of the value. */
module PosDicts {
  import opened Graphs

  type Point = seq<real>
  type PosDict = seq<(NodeId, Point)>

  function Keys(d: PosDict): (ks: seq<NodeId>)
    ensures |ks| == |d| && forall i :: 0 <= i < |d| ==> ks[i] == d[i].0
  {
    seq(|d|, i requires 0 <= i < |d| => d[i].0)
  }

  function KeySet(d: PosDict): set<NodeId>
  {
    set p | p in d :: p.0
  }

  /** `list(d.values())`. */
  function Values(d: PosDict): (vs: seq<Point>)
    ensures |vs| == |d| && forall i :: 0 <= i < |d| ==> vs[i] == d[i].1
  {
    seq(|d|, i requires 0 <= i < |d| => d[i].1)
  }

  /** The items have distinct keys, as those of a dict do. */
  predicate IsDict(d: PosDict)
  {
    forall i, j :: 0 <= i < j < |d| ==> d[i].0 != d[j].0
  }

  /** `dict(zip(ks, vs))` for distinct `ks`: zip stops at the shorter list. */
  function Zip(ks: seq<NodeId>, vs: seq<Point>): (d: PosDict)
    ensures |d| == if |ks| <= |vs| then |ks| else |vs|
    ensures forall i :: 0 <= i < |d| ==> d[i] == (ks[i], vs[i])
  {
    seq(if |ks| <= |vs| then |ks| else |vs|, i requires 0 <= i < |ks| && i < |vs| => (ks[i], vs[i]))
  }

  lemma ZipIsDict(ks: seq<NodeId>, vs: seq<Point>)
    requires Distinct(ks)
    ensures IsDict(Zip(ks, vs))
  {
  }

  lemma ZipKeys(ks: seq<NodeId>, vs: seq<Point>)
    requires |ks| <= |vs|
    ensures Keys(Zip(ks, vs)) == ks
    ensures KeySet(Zip(ks, vs)) == set n | n in ks
  {
    var d := Zip(ks, vs);
    assert forall n :: n in ks ==> n in KeySet(d) by {
      forall n | n in ks ensures n in KeySet(d) {
        var i :| 0 <= i < |ks| && ks[i] == n;
        assert d[i].0 == n;
      }
    }
  }

  /** Zipping a dict's keys with its values gives the dict back. */
  lemma ZipKeysValues(d: PosDict)
    ensures Zip(Keys(d), Values(d)) == d
  {
  }

  /** Index of key `k` in `d`, or |d| when it is absent. */
  function IndexOf(d: PosDict, k: NodeId): (i: nat)
    ensures i <= |d|
    ensures i < |d| ==> d[i].0 == k
    ensures forall j :: 0 <= j < i ==> d[j].0 != k
  {
    if d == [] then 0
    else if d[0].0 == k then 0
    else 1 + IndexOf(d[1..], k)
  }

  /** `d[k] = v`: overwrites the value of a present key in place, appends a new one. */
  function Assign(d: PosDict, k: NodeId, v: Point): (r: PosDict)
    ensures IndexOf(d, k) == |d| ==> r == d + [(k, v)]
    ensures IndexOf(d, k) < |d| ==> r == d[IndexOf(d, k) := (k, v)]
  {
    var i := IndexOf(d, k);
    if i == |d| then d + [(k, v)] else d[i := (k, v)]
  }

  /** `d.update(e)`: assigns the items of `e` one after the other. */
  function Update(d: PosDict, e: PosDict): PosDict
    decreases |e|
  {
    if e == [] then d else Update(Assign(d, e[0].0, e[0].1), e[1..])
  }

  /** Merging a dict whose keys are new appends its items in their order. */
  lemma {:induction false} UpdateDisjoint(d: PosDict, e: PosDict)
    requires IsDict(e)
    requires KeySet(d) !! KeySet(e)
    ensures Update(d, e) == d + e
    decreases |e|
  {
    if e != [] {
      var d1 := d + [e[0]];
      UpdateDisjointStep(d, e);
      UpdateDisjoint(d1, e[1..]);
      assert d1 + e[1..] == d + e;
    }
  }

  lemma UpdateDisjointStep(d: PosDict, e: PosDict)
    requires IsDict(e) && e != []
    requires KeySet(d) !! KeySet(e)
    ensures Update(d, e) == Update(d + [e[0]], e[1..])
    ensures IsDict(e[1..]) && KeySet(d + [e[0]]) !! KeySet(e[1..])
  {
    var k := e[0].0;
    var t := e[1..];
    KeySetCons(e);
    AssignAbsent(d, k, e[0].1);
    assert KeySet(d + [e[0]]) == KeySet(d) + {k} by {
      ConcatKeySet(d, [e[0]]);
      assert e[0] in [e[0]];
    }
    assert k !in KeySet(t) by {
      forall p | p in t ensures p.0 != k {
        var j :| 0 <= j < |t| && t[j] == p;
        assert e[j + 1] == p;
      }
    }
  }

  /** Assigning an absent key appends it. */
  lemma AssignAbsent(d: PosDict, k: NodeId, v: Point)
    requires k !in KeySet(d)
    ensures Assign(d, k, v) == d + [(k, v)]
  {
    IndexOfAbsent(d, k);
  }

  /** A key is found before the end exactly when it is present. */
  lemma IndexOfAbsent(d: PosDict, k: NodeId)
    ensures IndexOf(d, k) < |d| <==> k in KeySet(d)
  {
    var i := IndexOf(d, k);
    if i < |d| {
      assert d[i] in d;
    }
    if k in KeySet(d) {
      var p :| p in d && p.0 == k;
      var j :| 0 <= j < |d| && d[j] == p;
      assert i <= j;
    }
  }

  lemma ConcatKeySet(d: PosDict, e: PosDict)
    ensures KeySet(d + e) == KeySet(d) + KeySet(e)
  {
    assert forall p :: p in d + e <==> p in d || p in e;
  }

  /** Assigning a key keeps a dict a dict and adds the key. */
  lemma AssignKeys(d: PosDict, k: NodeId, v: Point)
    requires IsDict(d)
    ensures IsDict(Assign(d, k, v)) && KeySet(Assign(d, k, v)) == KeySet(d) + {k}
  {
    var i := IndexOf(d, k);
    if i == |d| {
      ConcatKeySet(d, [(k, v)]);
      assert KeySet([(k, v)]) == {k} by { assert (k, v) in [(k, v)]; }
      forall j | 0 <= j < |d| ensures d[j].0 != k { }
    } else {
      var r := d[i := (k, v)];
      forall x | x in KeySet(r) ensures x in KeySet(d) + {k} {
        var p :| p in r && p.0 == x;
        var j :| 0 <= j < |r| && r[j] == p;
        if j != i { assert d[j] in d; }
      }
      forall x | x in KeySet(d) + {k} ensures x in KeySet(r) {
        if x == k {
          assert r[i] in r;
        } else {
          var p :| p in d && p.0 == x;
          var j :| 0 <= j < |d| && d[j] == p;
          assert r[j] in r;
        }
      }
    }
  }

  /** Updating a dict with one that has the same keys in the same order
      replaces every value: the result is the second dict. */
  lemma UpdateSameKeys(d: PosDict, e: PosDict)
    requires IsDict(d) && Keys(d) == Keys(e)
    ensures Update(d, e) == e
  {
    UpdateFrom(d, e, 0);
  }

  lemma {:induction false} UpdateFrom(d: PosDict, e: PosDict, k: nat)
    requires IsDict(d) && Keys(d) == Keys(e) && k <= |e| && d[..k] == e[..k]
    ensures Update(d, e[k..]) == e
    decreases |e| - k
  {
    if k == |e| {
      assert d == d[..k];
    } else {
      assert Keys(d)[k] == Keys(e)[k];
      assert IndexOf(d, e[k].0) == k by { IndexOfPresent(d, k); }
      var d1 := d[k := e[k]];
      assert Keys(d1) == Keys(e) by {
        forall j | 0 <= j < |e| ensures Keys(d1)[j] == Keys(e)[j] {
          assert Keys(d)[j] == Keys(e)[j];
        }
      }
      assert d1[..k + 1] == e[..k + 1];
      assert e[k..][1..] == e[k + 1..];
      UpdateFrom(d1, e, k + 1);
    }
  }

  lemma IndexOfPresent(d: PosDict, k: nat)
    requires IsDict(d) && k < |d|
    ensures IndexOf(d, d[k].0) == k
  {
    var i := IndexOf(d, d[k].0);
    assert i < |d| ==> d[i].0 == d[k].0;
  }

  /** `d.update(e)` keeps a dict a dict, with the keys of both. */
  lemma {:induction false} UpdateKeys(d: PosDict, e: PosDict)
    requires IsDict(d)
    ensures IsDict(Update(d, e)) && KeySet(Update(d, e)) == KeySet(d) + KeySet(e)
    decreases |e|
  {
    if e != [] {
      var a := Assign(d, e[0].0, e[0].1);
      AssignKeys(d, e[0].0, e[0].1);
      UpdateKeys(a, e[1..]);
      KeySetCons(e);
      assert Update(d, e) == Update(a, e[1..]);
    }
  }

  lemma KeySetCons(e: PosDict)
    requires e != []
    ensures KeySet(e) == {e[0].0} + KeySet(e[1..])
  {
    assert e == [e[0]] + e[1..];
    ConcatKeySet([e[0]], e[1..]);
    assert KeySet([e[0]]) == {e[0].0} by { assert e[0] in [e[0]]; }
  }

  /** A dict has as many items as keys. */
  lemma DictSize(d: PosDict)
    requires IsDict(d)
    ensures |KeySet(d)| == |d|
  {
    assert KeySet(d) == set n | n in Keys(d) by {
      forall n | n in KeySet(d) ensures n in Keys(d) {
        var p :| p in d && p.0 == n;
        var j :| 0 <= j < |d| && d[j] == p;
        assert Keys(d)[j] == n;
      }
      forall n | n in Keys(d) ensures n in KeySet(d) {
        var j :| 0 <= j < |d| && Keys(d)[j] == n;
        assert d[j] in d;
      }
    }
    DistinctCard(Keys(d));
  }

  // ----- sorted(d.items(), key=lambda x: x[0]) -------------------------------

  predicate SortedByKey(d: PosDict)
  {
    forall i, j :: 0 <= i < j < |d| ==> d[i].0 <= d[j].0
  }

  /** Inserts `x` into an ascending list of items, after the items whose key is
      not larger. `SortByKey` inserts the first item into the sorted rest, so
      items of equal key would come out in reverse order; the keys of a dict
      are distinct, so no two items compare equal. */
  function Insert(x: (NodeId, Point), s: PosDict): (r: PosDict)
    requires SortedByKey(s)
    ensures SortedByKey(r)
    ensures multiset(r) == multiset(s) + multiset{x}
    ensures |r| == |s| + 1
  {
    if s == [] then [x]
    else if x.0 < s[0].0 then
      InsertFront(x, s);
      [x] + s
    else
      var rest := Insert(x, s[1..]);
      InsertBehind(x, s, rest);
      [s[0]] + rest
  }

  lemma InsertFront(x: (NodeId, Point), s: PosDict)
    requires SortedByKey(s) && s != [] && x.0 < s[0].0
    ensures SortedByKey([x] + s) && multiset([x] + s) == multiset(s) + multiset{x}
  {
    forall j | 0 <= j < |s| ensures x.0 <= s[j].0 {
      assert s[0].0 <= s[j].0 || j == 0;
    }
  }

  /** The third case of `Insert`: the head stays in front of the rest. */
  lemma InsertBehind(x: (NodeId, Point), s: PosDict, rest: PosDict)
    requires SortedByKey(s) && s != [] && s[0].0 <= x.0
    requires SortedByKey(rest) && multiset(rest) == multiset(s[1..]) + multiset{x}
    ensures SortedByKey([s[0]] + rest) && multiset([s[0]] + rest) == multiset(s) + multiset{x}
  {
    assert s == [s[0]] + s[1..];
    HeadLeast(s);
    ConsSorted(s[0], rest);
  }

  /** An item whose key is at most every key of a sorted list can go first. */
  lemma ConsSorted(h: (NodeId, Point), r: PosDict)
    requires SortedByKey(r) && forall y :: y in multiset(r) ==> h.0 <= y.0
    ensures SortedByKey([h] + r)
  {
    forall j | 0 <= j < |r| ensures h.0 <= r[j].0 {
      assert r[j] in multiset(r);
    }
  }

  /** The first item of a sorted list has the least key. */
  lemma HeadLeast(s: PosDict)
    requires SortedByKey(s) && s != []
    ensures forall y :: y in multiset(s[1..]) ==> s[0].0 <= y.0
  {
    forall y | y in multiset(s[1..]) ensures s[0].0 <= y.0 {
      var m :| 0 <= m < |s[1..]| && s[1..][m] == y;
      assert s[m + 1] == y;
    }
  }

  /** Python's `sorted` on a dict's items, by key. */
  function SortByKey(d: PosDict): (r: PosDict)
    ensures SortedByKey(r)
    ensures multiset(r) == multiset(d)
    ensures |r| == |d|
  {
    if d == [] then []
    else
      assert d == [d[0]] + d[1..];
      Insert(d[0], SortByKey(d[1..]))
  }

  predicate StrictlySorted(d: PosDict)
  {
    forall i, j :: 0 <= i < j < |d| ==> d[i].0 < d[j].0
  }

  lemma SameItemsSameKeys(d: PosDict, e: PosDict)
    requires forall x :: x in d <==> x in e
    ensures KeySet(d) == KeySet(e)
  {
  }

  lemma {:induction false} InsertStrict(x: (NodeId, Point), s: PosDict)
    requires StrictlySorted(s)
    requires x.0 !in KeySet(s)
    ensures StrictlySorted(Insert(x, s))
    decreases |s|
  {
    if s != [] {
      KeySetTail(s);
      if x.0 < s[0].0 {
        InsertStrictFront(x, s);
      } else {
        InsertStrict(x, s[1..]);
        InsertStrictStep(x, s);
      }
    }
  }

  lemma KeySetTail(s: PosDict)
    requires s != []
    ensures s[0].0 in KeySet(s) && KeySet(s[1..]) <= KeySet(s)
  {
    assert s[0] in s;
    forall y | y in KeySet(s[1..]) ensures y in KeySet(s) {
      var p :| p in s[1..] && p.0 == y;
    }
  }

  lemma InsertStrictFront(x: (NodeId, Point), s: PosDict)
    requires StrictlySorted(s) && s != [] && x.0 < s[0].0
    ensures StrictlySorted(Insert(x, s))
  {
    HeadLeastStrict(s);
    assert multiset(s) == multiset{s[0]} + multiset(s[1..]) by {
      assert s == [s[0]] + s[1..];
    }
    ConsStrict(x, s);
  }

  lemma InsertStrictStep(x: (NodeId, Point), s: PosDict)
    requires StrictlySorted(s) && s != [] && s[0].0 < x.0
    requires StrictlySorted(Insert(x, s[1..]))
    ensures StrictlySorted(Insert(x, s))
  {
    HeadLeastStrict(s);
    var rest := Insert(x, s[1..]);
    assert multiset(rest) == multiset(s[1..]) + multiset{x};
    ConsStrict(s[0], rest);
  }

  /** In a strictly sorted list the first key is below all the others. */
  lemma HeadLeastStrict(s: PosDict)
    requires StrictlySorted(s) && s != []
    ensures forall y :: y in multiset(s[1..]) ==> s[0].0 < y.0
  {
    forall y | y in multiset(s[1..]) ensures s[0].0 < y.0 {
      var m :| 0 <= m < |s[1..]| && s[1..][m] == y;
      assert s[m + 1] == y;
    }
  }

  /** An item whose key is below every key of a strictly sorted list can go first. */
  lemma ConsStrict(h: (NodeId, Point), r: PosDict)
    requires StrictlySorted(r) && forall y :: y in multiset(r) ==> h.0 < y.0
    ensures StrictlySorted([h] + r)
  {
    forall j | 0 <= j < |r| ensures h.0 < r[j].0 {
      assert r[j] in multiset(r);
    }
  }

  /** Sorting rearranges the items and neither adds nor drops one. */
  lemma SortedSameItems(d: PosDict)
    ensures forall x :: x in SortByKey(d) <==> x in d
  {
    var r := SortByKey(d);
    forall x ensures x in r <==> x in d {
      assert x in r <==> x in multiset(r);
      assert x in d <==> x in multiset(d);
    }
  }

  /** Sorting a dict's items keeps the dict: the same items, so the same keys
      each with its value, now in strictly increasing key order. */
  lemma {:induction false} SortByKeyIsDict(d: PosDict)
    requires IsDict(d)
    ensures StrictlySorted(SortByKey(d))
    ensures IsDict(SortByKey(d))
    ensures forall x :: x in SortByKey(d) <==> x in d
    ensures KeySet(SortByKey(d)) == KeySet(d)
  {
    var r := SortByKey(d);
    SortedSameItems(d);
    SameItemsSameKeys(r, d);
    if d != [] {
      var t := d[1..];
      assert IsDict(t);
      SortByKeyIsDict(t);
      assert d[0].0 !in KeySet(t) by {
        forall p | p in t ensures p.0 != d[0].0 {
          var m :| 0 <= m < |t| && t[m] == p;
          assert d[m + 1] == p;
        }
      }
      InsertStrict(d[0], SortByKey(t));
    }
  }
}
