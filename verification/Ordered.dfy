/** Integer-keyed maps: iteration in key order, and sums over their entries. */
module Ordered {
  import opened Common

  function Least(keys: set<int>): (k: int)
    requires keys != {}
    ensures k in keys && forall j :: j in keys ==> k <= j
  {
    LeastExists(keys);
    var k :| k in keys && forall j :: j in keys ==> k <= j;
    k
  }

  lemma {:induction false} LeastExists(keys: set<int>)
    requires keys != {}
    ensures exists k :: k in keys && forall j :: j in keys ==> k <= j
    decreases |keys|
  {
    assert exists k :: k in keys by {
      if forall k :: k !in keys {
        assert false;
      }
    }
    var k :| k in keys;
    var rest := keys - {k};
    if rest == {} {
      assert keys == {k};
    } else {
      LeastExists(rest);
      var l :| l in rest && forall j :: j in rest ==> l <= j;
      var m := Min(k, l);
      assert m in keys;
      forall j | j in keys ensures m <= j {
        assert j == k || j in rest;
      }
    }
  }

  /** The keys of an ordered map, in iteration order. */
  function Ascending(keys: set<int>): seq<int>
    decreases |keys|
  {
    if keys == {} then [] else
    var k := Least(keys);
    [k] + Ascending(keys - {k})
  }

  /** The sum of a quantity over all entries. */
  ghost function SumMap<V>(m: map<int, V>, f: V -> nat): nat
    decreases |m.Keys|
  {
    if m.Keys == {} then 0 else
    var k := Least(m.Keys);
    f(m[k]) + SumMap(m - {k}, f)
  }

  lemma {:induction false} SumMapRemove<V>(m: map<int, V>, f: V -> nat, k: int)
    requires k in m
    ensures SumMap(m, f) == f(m[k]) + SumMap(m - {k}, f)
    decreases |m.Keys|
  {
    var j := Least(m.Keys);
    if j != k {
      SumMapRemove(m - {j}, f, k);
      assert m - {j} - {k} == m - {k} - {j};
      assert Least((m - {k}).Keys) == j;
    }
  }

  lemma SumMapPut<V>(m: map<int, V>, f: V -> nat, k: int, v: V)
    ensures SumMap(m[k := v], f) + (if k in m then f(m[k]) else 0) == SumMap(m, f) + f(v)
  {
    SumMapRemove(m[k := v], f, k);
    if k in m {
      SumMapRemove(m, f, k);
      assert m[k := v] - {k} == m - {k};
    } else {
      assert m[k := v] - {k} == m;
    }
  }
}
