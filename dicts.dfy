/**
 * The lookup tables the parsers and the bot load from JSON. A table is kept
 * as its entries in file order. The dict `json.load` builds from them has
 * each key once, at its first appearance, with the value of its last
 * appearance (`Items`); `Get` and `Invert` read that dict.
 */
module Dicts {
  import opened Wrappers

  type Dict<V> = seq<(string, V)>

  /** `d.keys()`, in insertion order. */
  function Keys<V>(d: Dict<V>): (ks: seq<string>)
    ensures |ks| == |d|
    ensures forall i :: 0 <= i < |d| ==> ks[i] == d[i].0
  {
    if d == [] then [] else Keys(d[..|d| - 1]) + [d[|d| - 1].0]
  }

  /** The position of the last entry for `k`, or None. */
  function LastIndex<V>(d: Dict<V>, k: string): (r: Option<nat>)
    ensures r.None? <==> forall i :: 0 <= i < |d| ==> d[i].0 != k
    ensures r.Some? ==> r.value < |d| && d[r.value].0 == k &&
                        forall j :: r.value < j < |d| ==> d[j].0 != k
  {
    if d == [] then None
    else if d[|d| - 1].0 == k then Some(|d| - 1)
    else
      assert forall i :: 0 <= i < |d| - 1 ==> d[i] == d[..|d| - 1][i];
      LastIndex(d[..|d| - 1], k)
  }

  /** `d.get(k)`: the value of the last entry for `k`, or None when `k` is not a key. */
  function Get<V>(d: Dict<V>, k: string): (r: Option<V>)
    ensures r.None? <==> forall i :: 0 <= i < |d| ==> d[i].0 != k
    ensures forall i :: 0 <= i < |d| && d[i].0 == k && (forall j :: i < j < |d| ==> d[j].0 != k) ==>
                          r == Some(d[i].1)
  {
    match LastIndex(d, k)
    case None => None
    case Some(i) => Some(d[i].1)
  }

  /** The values of `d`, in insertion order. */
  function Values<V>(d: Dict<V>): (vs: seq<V>)
    ensures |vs| == |d|
    ensures forall i :: 0 <= i < |d| ==> vs[i] == d[i].1
  {
    if d == [] then [] else Values(d[..|d| - 1]) + [d[|d| - 1].1]
  }

  /** No key occurs in two entries, as in a Python dict. */
  predicate DistinctKeys<V>(d: Dict<V>) {
    forall a, b :: 0 <= a < b < |d| ==> d[a].0 != d[b].0
  }

  /** Appending an entry: its key now gives its value, every other key what it gave before. */
  lemma GetSnoc<V>(p: Dict<V>, e: (string, V), k: string)
    ensures Get(p + [e], k) == if k == e.0 then Some(e.1) else Get(p, k)
  {
    var d := p + [e];
    assert d[..|d| - 1] == p;
  }

  /**
   * `d.items()` of the dict `json.load` builds from the entries: one entry
   * per key, at the position where the key first appears, holding the value
   * of its last appearance.
   */
  function Items<V>(d: Dict<V>): (r: Dict<V>)
    ensures |r| <= |d|
  {
    if d == [] then []
    else
      var q := Items(d[..|d| - 1]);
      var e := d[|d| - 1];
      match LastIndex(q, e.0)
      case None => q + [e]
      case Some(i) => q[i := e]
  }

  /** The items have distinct keys. */
  lemma {:induction false} ItemsDistinct<V>(d: Dict<V>)
    ensures DistinctKeys(Items(d))
  {
    if d != [] {
      var q := Items(d[..|d| - 1]);
      var e := d[|d| - 1];
      ItemsDistinct(d[..|d| - 1]);
      match LastIndex(q, e.0)
      case None =>
        assert Items(d) == q + [e];
      case Some(i) =>
        assert Items(d) == q[i := e];
    }
  }

  /** Every item holds the value `Get` gives for its key. */
  lemma {:induction false} ItemsValues<V>(d: Dict<V>, j: nat)
    requires j < |Items(d)|
    ensures Get(d, Items(d)[j].0) == Some(Items(d)[j].1)
  {
    var p := d[..|d| - 1];
    var e := d[|d| - 1];
    var q := Items(p);
    var k := Items(d)[j].0;
    assert d == p + [e];
    GetSnoc(p, e, k);
    match LastIndex(q, e.0)
    case None =>
      assert Items(d) == q + [e];
      if j < |q| {
        ItemsValues(p, j);
      }
    case Some(i) =>
      assert Items(d) == q[i := e];
      if j != i {
        ItemsDistinct(p);
        ItemsValues(p, j);
      }
  }

  /** Every key of the entries has an item. */
  lemma {:induction false} ItemsCover<V>(d: Dict<V>, k: string, i: nat) returns (j: nat)
    requires i < |d| && d[i].0 == k
    ensures j < |Items(d)| && Items(d)[j].0 == k
  {
    var n := |d| - 1;
    var p := d[..n];
    var e := d[n];
    var q := Items(p);
    var last := LastIndex(q, e.0);
    if last.None? {
      assert Items(d) == q + [e];
    } else {
      assert Items(d) == q[last.value := e];
    }
    if k == e.0 {
      j := if last.None? then |q| else last.value;
    } else {
      assert i < n && p[i] == d[i];
      j := ItemsCover(p, k, i);
    }
  }

  /**
   * The comprehension `{value: key for key, value in entries}` run over a
   * list of entries: each value becomes a key, mapped to the key of the last
   * entry that carries it.
   */
  function InvertEntries(d: Dict<string>): (m: map<string, string>)
    ensures forall v :: v in m <==> v in Values(d)
  {
    if d == [] then map[]
    else
      var p := d[..|d| - 1];
      var e := d[|d| - 1];
      assert Values(d) == Values(p) + [e.1];
      InvertEntries(p)[e.1 := e.0]
  }

  /** A value carried by no later entry maps back to the key of its own entry. */
  lemma {:induction false} InvertEntriesLast(d: Dict<string>, i: nat)
    requires i < |d| && forall j :: i < j < |d| ==> d[j].1 != d[i].1
    ensures d[i].1 in InvertEntries(d) && InvertEntries(d)[d[i].1] == d[i].0
  {
    var n := |d| - 1;
    if i < n {
      var p := d[..n];
      assert p[i] == d[i];
      assert forall j :: i < j < n ==> p[j] == d[j];
      InvertEntriesLast(p, i);
    }
  }

  /** The last entry that carries value `v`. */
  lemma LastCarrier(d: Dict<string>, v: string) returns (i: nat)
    requires v in Values(d)
    ensures i < |d| && d[i].1 == v && forall j :: i < j < |d| ==> d[j].1 != v
  {
    i := |d| - 1;
    while d[i].1 != v
      invariant i < |d| && forall j :: i < j < |d| ==> d[j].1 != v
      invariant exists j :: 0 <= j <= i && d[j].1 == v
      decreases i
    {
      i := i - 1;
    }
  }

  /**
   * `{value: key for key, value in d.items()}`: the values the dict holds
   * become the keys, each mapped back to a key that holds it.
   */
  function Invert(d: Dict<string>): (m: map<string, string>)
    ensures forall v :: v in m <==> exists k :: Get(d, k) == Some(v)
    ensures forall v :: v in m ==> Get(d, m[v]) == Some(v)
  {
    InvertFacts(d);
    InvertEntries(Items(d))
  }

  lemma InvertFacts(d: Dict<string>)
    ensures forall v :: v in InvertEntries(Items(d)) <==> exists k :: Get(d, k) == Some(v)
    ensures forall v :: v in InvertEntries(Items(d)) ==> Get(d, InvertEntries(Items(d))[v]) == Some(v)
  {
    var items := Items(d);
    var m := InvertEntries(items);
    forall v | v in m ensures Get(d, m[v]) == Some(v) {
      var i := LastCarrier(items, v);
      InvertEntriesLast(items, i);
      ItemsValues(d, i);
    }
    forall v | exists k :: Get(d, k) == Some(v) ensures v in m {
      var k :| Get(d, k) == Some(v);
      var i :| 0 <= i < |d| && d[i].0 == k;
      var j := ItemsCover(d, k, i);
      ItemsValues(d, j);
      assert Values(items)[j] == v;
    }
  }

  /**
   * The last write wins: a value that no later item of the dict carries maps
   * back to the key of its own item.
   */
  lemma InvertLast(d: Dict<string>, i: nat)
    requires i < |Items(d)| && forall j :: i < j < |Items(d)| ==> Items(d)[j].1 != Items(d)[i].1
    ensures Invert(d)[Items(d)[i].1] == Items(d)[i].0
  {
    InvertEntriesLast(Items(d), i);
  }

  /** A value held by one key only maps back to that key. */
  lemma InvertInjective(d: Dict<string>, k: string, v: string)
    requires Get(d, k) == Some(v)
    requires forall k' :: k' != k ==> Get(d, k') != Some(v)
    ensures v in Invert(d) && Invert(d)[v] == k
  {
  }
}
