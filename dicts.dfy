/**
 * Python's insertion-ordered `dict[str, V]`: the keys in insertion order
 * and the map from key to value.  Assigning to an existing key keeps its
 * position; assigning to a new key appends it.
 */
module Dicts {
  import opened Wrappers

  datatype Dict<V> = Dict(keys: seq<string>, values: map<string, V>)

  predicate Distinct(s: seq<string>) {
    forall i, j :: 0 <= i < j < |s| ==> s[i] != s[j]
  }

  predicate Valid<V>(d: Dict<V>) {
    Distinct(d.keys) && (forall k :: k in d.values ==> k in d.keys) && (forall k :: k in d.keys ==> k in d.values)
  }

  function Empty<V>(): (d: Dict<V>)
    ensures Valid(d) && d.keys == []
  {
    Dict([], map[])
  }

  /** `d[k] = v` */
  function Put<V>(d: Dict<V>, k: string, v: V): (r: Dict<V>)
    requires Valid(d)
    ensures Valid(r)
    ensures r.keys == if k in d.values then d.keys else d.keys + [k]
    ensures r.values == d.values[k := v]
  {
    Dict(if k in d.values then d.keys else d.keys + [k], d.values[k := v])
  }

  /** `d[k]`, which raises KeyError for a missing key. */
  function Get<V>(d: Dict<V>, k: string): (r: Result<V>)
    ensures r.Ok? <==> k in d.values
    ensures r.Ok? ==> r.value == d.values[k]
    ensures r.Err? ==> r.error == KeyError
  {
    if k in d.values then Ok(d.values[k]) else Err(KeyError)
  }

  /** The keys of a list of pairs, in order. */
  function PairKeys<V>(pairs: seq<(string, V)>): (ks: seq<string>)
    ensures |ks| == |pairs| && forall i :: 0 <= i < |pairs| ==> ks[i] == pairs[i].0
  {
    seq(|pairs|, i requires 0 <= i < |pairs| => pairs[i].0)
  }

  /** `{k1: v1, k2: v2, ...}` written as a literal: keys in order of first
      appearance, a later duplicate overwriting the value. */
  function FromList<V>(pairs: seq<(string, V)>): (d: Dict<V>)
    ensures Valid(d)
    ensures d.values.Keys == set p | p in pairs :: p.0
    decreases |pairs|
  {
    if pairs == [] then Empty()
    else
      var init := pairs[..|pairs| - 1];
      var last := pairs[|pairs| - 1];
      assert pairs == init + [last];
      assert (set p | p in pairs :: p.0) == (set p | p in init :: p.0) + {last.0};
      Put(FromList(init), last.0, last.1)
  }

  /** A literal with distinct keys keeps them in the order written. */
  lemma {:induction false} FromListOrder<V>(pairs: seq<(string, V)>)
    requires Distinct(PairKeys(pairs))
    ensures FromList(pairs).keys == PairKeys(pairs)
    decreases |pairs|
  {
    if pairs != [] {
      var init := pairs[..|pairs| - 1];
      var last := pairs[|pairs| - 1];
      assert pairs == init + [last];
      assert PairKeys(init) == PairKeys(pairs)[..|init|];
      FromListOrder(init);
      FromListKeys(pairs, init, last, FromList(init));
    }
  }

  /** Each key of a literal holds the value of its last occurrence. */
  lemma {:induction false} FromListLastWins<V>(pairs: seq<(string, V)>)
    ensures forall i :: 0 <= i < |pairs| && (forall j :: i < j < |pairs| ==> pairs[j].0 != pairs[i].0) ==>
      FromList(pairs).values[pairs[i].0] == pairs[i].1
    decreases |pairs|
  {
    if pairs != [] {
      var init := pairs[..|pairs| - 1];
      var last := pairs[|pairs| - 1];
      assert pairs == init + [last];
      FromListLastWins(init);
      FromListValues(pairs, init, last, FromList(init));
    }
  }

  /** The key order of a literal grows by its last key when that key is
      new. */
  lemma FromListKeys<V>(pairs: seq<(string, V)>, init: seq<(string, V)>, last: (string, V), d: Dict<V>)
    requires pairs == init + [last]
    requires d.values.Keys == set p | p in init :: p.0
    requires Distinct(PairKeys(init)) ==> d.keys == PairKeys(init)
    ensures Distinct(PairKeys(pairs)) ==> last.0 !in d.values && d.keys + [last.0] == PairKeys(pairs)
  {
    if Distinct(PairKeys(pairs)) {
      var ks := PairKeys(pairs);
      assert PairKeys(init) == ks[..|init|];
      forall p | p in init ensures p.0 != last.0 {
        var i :| 0 <= i < |init| && init[i] == p;
        assert ks[i] == p.0 && ks[|init|] == last.0;
      }
    }
  }

  /** The last pair of a literal sets its key; every other key whose last
      occurrence is earlier keeps the value it had. */
  lemma FromListValues<V>(pairs: seq<(string, V)>, init: seq<(string, V)>, last: (string, V), d: Dict<V>)
    requires pairs == init + [last]
    requires d.values.Keys == set p | p in init :: p.0
    requires forall i :: 0 <= i < |init| && (forall j :: i < j < |init| ==> init[j].0 != init[i].0) ==>
      d.values[init[i].0] == init[i].1
    ensures forall i :: 0 <= i < |pairs| && (forall j :: i < j < |pairs| ==> pairs[j].0 != pairs[i].0) ==>
      d.values[last.0 := last.1][pairs[i].0] == pairs[i].1
  {
    forall i | 0 <= i < |pairs| && (forall j :: i < j < |pairs| ==> pairs[j].0 != pairs[i].0)
      ensures d.values[last.0 := last.1][pairs[i].0] == pairs[i].1
    {
      if i < |init| {
        assert pairs[|init|] == last;
        assert pairs[i] == init[i];
        assert forall j :: i < j < |init| ==> init[j] == pairs[j];
      }
    }
  }
}
