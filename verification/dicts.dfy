/** Python dicts as the output records use them: keys kept in first-insertion order. */
module Dicts {
  import opened Wrappers

  datatype Dict<K, V> = Dict(items: seq<(K, V)>)

  function Empty<K, V>(): Dict<K, V> {
    Dict([])
  }

  /** The keys in iteration order. */
  function KeySeq<K, V>(d: Dict<K, V>): (ks: seq<K>)
    ensures |ks| == |d.items|
    ensures forall i :: 0 <= i < |ks| ==> ks[i] == d.items[i].0
  {
    seq(|d.items|, i requires 0 <= i < |d.items| => d.items[i].0)
  }

  /** Position of the first occurrence of `k` in `ks`, or `|ks|` when there is none. */
  function IndexOf<K(==)>(ks: seq<K>, k: K): (i: nat)
    ensures i <= |ks|
    ensures i < |ks| <==> k in ks
    ensures i < |ks| ==> ks[i] == k
    ensures forall j :: 0 <= j < i ==> ks[j] != k
  {
    if |ks| == 0 then 0 else if ks[0] == k then 0 else 1 + IndexOf(ks[1..], k)
  }

  /** The first-occurrence position is the same after appending anything other than `k`. */
  lemma IndexOfAppend<K>(ks: seq<K>, x: K, k: K)
    requires k != x || k in ks
    ensures IndexOf(ks + [x], k) == if k in ks then IndexOf(ks, k) else |ks| + 1
  {
    var i := IndexOf(ks + [x], k);
    var j := IndexOf(ks, k);
    if k in ks {
      assert (ks + [x])[j] == k;
      assert i <= j;
      assert ks[i] == k;
    } else {
      assert k !in ks + [x];
    }
  }

  /** `d.get(k)`. */
  function Get<K(==), V>(d: Dict<K, V>, k: K): (r: Option<V>)
    ensures r.Some? <==> k in KeySeq(d)
  {
    var i := IndexOf(KeySeq(d), k);
    if i < |d.items| then Some(d.items[i].1) else None
  }

  /** `d[k] = v`: replaces the value in place when `k` is present, appends otherwise. */
  function Put<K(==, !new), V>(d: Dict<K, V>, k: K, v: V): (r: Dict<K, V>)
    ensures Get(r, k) == Some(v)
    ensures forall k' :: k' != k ==> Get(r, k') == Get(d, k')
    ensures KeySeq(r) == if k in KeySeq(d) then KeySeq(d) else KeySeq(d) + [k]
  {
    var ks := KeySeq(d);
    var i := IndexOf(ks, k);
    if i < |d.items| then
      var r := Dict(d.items[i := (k, v)]);
      assert KeySeq(r) == ks;
      r
    else
      var r := Dict(d.items + [(k, v)]);
      assert KeySeq(r) == ks + [k];
      forall k' | k' != k
        ensures Get(r, k') == Get(d, k')
      {
        IndexOfAppend(ks, k, k');
      }
      r
  }

  /** `list(dict.fromkeys(xs))`: the elements of `xs` in order of first occurrence. */
  function Dedup<K(==, !new)>(xs: seq<K>): (r: seq<K>)
    ensures forall x :: x in r <==> x in xs
    ensures forall i, j :: 0 <= i < j < |r| ==> r[i] != r[j]
    ensures forall i, j :: 0 <= i < j < |r| ==> IndexOf(xs, r[i]) < IndexOf(xs, r[j])
    decreases |xs|
  {
    if |xs| == 0 then []
    else
      var init := xs[..|xs| - 1];
      var x := xs[|xs| - 1];
      var p := Dedup(init);
      assert xs == init + [x];
      forall y | y in init
        ensures IndexOf(xs, y) == IndexOf(init, y)
      {
        IndexOfAppend(init, x, y);
      }
      if x in p then p
      else
        var r := p + [x];
        assert IndexOf(xs, x) == |init| by { assert xs[|init|] == x; }
        assert forall i :: 0 <= i < |p| ==> IndexOf(xs, r[i]) < |init|;
        r
  }

  /** Appending one element to the input appends it to the result exactly when it is new. */
  lemma DedupSnoc<K(!new)>(xs: seq<K>, x: K)
    ensures Dedup(xs + [x]) == if x in xs then Dedup(xs) else Dedup(xs) + [x]
  {
    assert (xs + [x])[..|xs + [x]| - 1] == xs;
  }
}
