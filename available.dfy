/**
 * `get_available_entities`: the descriptions of a table whose subscribed
 * entity names the appliance exposes, grouped under twelve prepared type
 * keys.  The table is a parameter: the module that should provide it is
 * not part of this model.
 */
module Available {
  import opened Wrappers
  import opened Dicts
  import opened Appliance
  import opened Descriptions

  /** `set(all_subscribed_entities).intersection(appliance.entities)` is
      not empty. */
  function Kept(d: Description, names: set<string>): (r: bool)
    ensures d.entity.None? && d.entities.None? ==> !r
  {
    exists n :: n in Subscribed(d) && n in names
  }

  /** The kept descriptions of one list, in list order. */
  function Filter(ds: seq<Description>, names: set<string>): (r: seq<Description>)
    ensures |r| <= |ds|
    ensures forall j :: 0 <= j < |r| ==> Kept(r[j], names)
    decreases |ds|
  {
    if ds == [] then []
    else
      Filter(ds[..|ds| - 1], names) + (if Kept(ds[|ds| - 1], names) then [ds[|ds| - 1]] else [])
  }

  /** `a` is `b` with some elements dropped, the rest in order. */
  predicate Subsequence<T(==)>(a: seq<T>, b: seq<T>)
    decreases |b|
  {
    if a == [] then true
    else if b == [] then false
    else if a[|a| - 1] == b[|b| - 1] then Subsequence(a[..|a| - 1], b[..|b| - 1])
    else Subsequence(a, b[..|b| - 1])
  }

  lemma {:induction false} FilterSubsequence(ds: seq<Description>, names: set<string>)
    ensures Subsequence(Filter(ds, names), ds)
    decreases |ds|
  {
    if ds != [] {
      var pre := ds[..|ds| - 1];
      FilterSubsequence(pre, names);
      var f := Filter(pre, names);
      if Kept(ds[|ds| - 1], names) {
        assert (f + [ds[|ds| - 1]])[..|f|] == f;
      } else {
        assert f + [] == f;
      }
    }
  }

  /** A description is kept exactly when it is in the list and subscribes to
      an entity the appliance has. */
  lemma {:induction false} FilterMembers(ds: seq<Description>, names: set<string>, d: Description)
    ensures d in Filter(ds, names) <==> d in ds && Kept(d, names)
    decreases |ds|
  {
    if ds != [] {
      var pre := ds[..|ds| - 1];
      FilterMembers(pre, names, d);
      assert ds == pre + [ds[|ds| - 1]];
    }
  }

  /** The descriptions kept under type key `k` by the first entries of the
      table: each entry's kept descriptions, appended in table order. */
  function Gathered(t: Table, k: string, names: set<string>): seq<Description>
    decreases |t|
  {
    if t == [] then []
    else Gathered(t[..|t| - 1], k, names) + (if t[|t| - 1].0 == k then Filter(t[|t| - 1].1, names) else [])
  }

  /** Some kept description sits under a type key that was not prepared:
      `available_entities[description_type]` raises KeyError. */
  predicate Clash(t: Table, names: set<string>) {
    exists i :: 0 <= i < |t| && t[i].0 !in PreparedKeys && Filter(t[i].1, names) != []
  }

  function PreparedDict(): (d: Dict<seq<Description>>)
    ensures Valid(d) && d.keys == PreparedKeys
    ensures forall k :: k in PreparedKeys ==> k in d.values && d.values[k] == []
  {
    Dict(PreparedKeys, map k | k in PreparedKeys :: [])
  }

  lemma GatheredSnoc(t: Table, i: nat, k: string, names: set<string>)
    requires i < |t|
    ensures Gathered(t[..i + 1], k, names)
         == Gathered(t[..i], k, names) + (if t[i].0 == k then Filter(t[i].1, names) else [])
  {
    assert t[..i + 1][..i] == t[..i];
  }

  lemma FilterSnoc(ds: seq<Description>, j: nat, names: set<string>)
    requires j < |ds|
    ensures Filter(ds[..j + 1], names) == Filter(ds[..j], names) + (if Kept(ds[j], names) then [ds[j]] else [])
  {
    assert ds[..j + 1][..j] == ds[..j];
  }

  /** `out` is `avail` with the descriptions `f` appended to the list of
      `key`, which must then be a prepared key unless `f` is empty. */
  predicate AppendedSoFar(out: Dict<seq<Description>>, avail: Dict<seq<Description>>, key: string, f: seq<Description>)
    requires forall k :: k in PreparedKeys ==> k in avail.values
  {
    && Valid(out) && out.keys == PreparedKeys
    && (key !in PreparedKeys ==> f == [])
    && forall k :: k in PreparedKeys ==> out.values[k] == avail.values[k] + (if key == k then f else [])
  }

  /** The entries of one table entry, appended one by one to the list
      of its type key. */
  method AppendKept(avail: Dict<seq<Description>>, key: string, ds: seq<Description>, names: set<string>)
    returns (r: Result<Dict<seq<Description>>>)
    requires Valid(avail) && avail.keys == PreparedKeys
    ensures r.Err? <==> key !in PreparedKeys && Filter(ds, names) != []
    ensures r.Err? ==> r.error == KeyError
    ensures r.Ok? ==> r.value.keys == PreparedKeys && Valid(r.value)
    ensures r.Ok? ==> forall k :: k in PreparedKeys ==>
      r.value.values[k] == avail.values[k] + (if key == k then Filter(ds, names) else [])
  {
    var out := avail;
    for j := 0 to |ds|
      invariant AppendedSoFar(out, avail, key, Filter(ds[..j], names))
    {
      var step := AppendOne(out, avail, key, ds, j, names);
      if step.Err? {
        assert ds[..|ds|] == ds;
        FilterMembers(ds, names, ds[j]);
        return Err(KeyError);
      }
      out := step.value;
    }
    assert ds[..|ds|] == ds;
    return Ok(out);
  }

  /** One iteration of `AppendKept`: the `j`-th description is appended
      when kept, and a kept description under an unprepared key raises
      KeyError. */
  method AppendOne(out: Dict<seq<Description>>, avail: Dict<seq<Description>>, key: string,
                   ds: seq<Description>, j: nat, names: set<string>)
    returns (r: Result<Dict<seq<Description>>>)
    requires Valid(avail) && avail.keys == PreparedKeys
    requires j < |ds| && AppendedSoFar(out, avail, key, Filter(ds[..j], names))
    ensures r.Err? <==> key !in PreparedKeys && Kept(ds[j], names)
    ensures r.Ok? ==> AppendedSoFar(r.value, avail, key, Filter(ds[..j + 1], names))
  {
    FilterSnoc(ds, j, names);
    if Kept(ds[j], names) {
      if key !in out.values {
        return Err(KeyError);
      }
      return Ok(Put(out, key, out.values[key] + [ds[j]]));
    }
    return Ok(out);
  }

  /**
   * `get_available_entities(appliance)` over the table `t`, for an
   * appliance whose entity names are `names`.  The result has the twelve
   * prepared keys, each with the kept descriptions of the entries under
   * that key, in table order; a kept description under any other key fails
   * with KeyError.
   */
  method GetAvailableEntities(t: Table, names: set<string>) returns (r: Result<Dict<seq<Description>>>)
    ensures r.Err? <==> Clash(t, names)
    ensures r.Err? ==> r.error == KeyError
    ensures r.Ok? ==> Valid(r.value) && r.value.keys == PreparedKeys
    ensures r.Ok? ==> forall k :: k in PreparedKeys ==> r.value.values[k] == Gathered(t, k, names)
  {
    var avail := PreparedDict();
    for i := 0 to |t|
      invariant GatheredSoFar(avail, t, i, names)
      invariant !Clash(t[..i], names)
    {
      ClashSnoc(t, i, names);
      var step := GatherEntry(avail, t, i, names);
      if step.Err? {
        assert t[..|t|] == t;
        return Err(KeyError);
      }
      avail := step.value;
    }
    assert t[..|t|] == t;
    return Ok(avail);
  }

  /** `avail` holds, under every prepared key, what the first `i` table
      entries gathered for it. */
  predicate GatheredSoFar(avail: Dict<seq<Description>>, t: Table, i: nat, names: set<string>)
    requires i <= |t|
  {
    && Valid(avail) && avail.keys == PreparedKeys
    && forall k :: k in PreparedKeys ==> avail.values[k] == Gathered(t[..i], k, names)
  }

  /** One iteration of `GetAvailableEntities`: the `i`-th table entry's
      kept descriptions are appended, or KeyError is raised. */
  method GatherEntry(avail: Dict<seq<Description>>, t: Table, i: nat, names: set<string>)
    returns (r: Result<Dict<seq<Description>>>)
    requires i < |t| && GatheredSoFar(avail, t, i, names)
    ensures r.Err? <==> t[i].0 !in PreparedKeys && Filter(t[i].1, names) != []
    ensures r.Err? ==> r.error == KeyError
    ensures r.Ok? ==> GatheredSoFar(r.value, t, i + 1, names)
  {
    forall k ensures Gathered(t[..i + 1], k, names)
                   == Gathered(t[..i], k, names) + (if t[i].0 == k then Filter(t[i].1, names) else []) {
      GatheredSnoc(t, i, k, names);
    }
    r := AppendKept(avail, t[i].0, t[i].1, names);
  }

  /** A clash in the first `i + 1` entries is one in the first `i` or at
      entry `i`. */
  lemma ClashSnoc(t: Table, i: nat, names: set<string>)
    requires i < |t|
    ensures Clash(t[..i + 1], names)
        <==> Clash(t[..i], names) || (t[i].0 !in PreparedKeys && Filter(t[i].1, names) != [])
  {
    var a, b := t[..i + 1], t[..i];
    assert forall j :: 0 <= j < i ==> a[j] == b[j] == t[j];
    assert a[i] == t[i];
  }

  /** With distinct type keys, a key's list is the kept part of that key's
      table list, or empty when the table does not have the key. */
  lemma {:induction false} GatheredDistinct(t: Table, k: string, names: set<string>)
    requires DistinctTypeKeys(t)
    ensures forall i :: 0 <= i < |t| && t[i].0 == k ==> Gathered(t, k, names) == Filter(t[i].1, names)
    ensures (forall i :: 0 <= i < |t| ==> t[i].0 != k) ==> Gathered(t, k, names) == []
    decreases |t|
  {
    if t != [] {
      var pre := t[..|t| - 1];
      GatheredDistinct(pre, k, names);
      assert forall i :: 0 <= i < |pre| ==> pre[i] == t[i];
    }
  }

  /** A description is listed under `k` exactly when some table entry with
      type key `k` has it and it subscribes to an entity the appliance has. */
  lemma {:induction false} GatheredMembers(t: Table, k: string, names: set<string>, d: Description)
    ensures d in Gathered(t, k, names) <==> Listed(t, k, d) && Kept(d, names)
    decreases |t|
  {
    if t != [] {
      var pre, last := t[..|t| - 1], t[|t| - 1];
      GatheredMembers(pre, k, names, d);
      FilterMembers(last.1, names, d);
      ListedSnoc(t, k, d);
      assert Gathered(t, k, names) == Gathered(pre, k, names) + (if last.0 == k then Filter(last.1, names) else []);
    }
  }

  /** Some entry of `t` with type key `k` lists `d`. */
  predicate Listed(t: Table, k: string, d: Description) {
    exists i :: 0 <= i < |t| && t[i].0 == k && d in t[i].1
  }

  lemma ListedSnoc(t: Table, k: string, d: Description)
    requires t != []
    ensures Listed(t, k, d) <==> Listed(t[..|t| - 1], k, d) || (t[|t| - 1].0 == k && d in t[|t| - 1].1)
  {
    var pre := t[..|t| - 1];
    assert forall i :: 0 <= i < |pre| ==> pre[i] == t[i];
  }

  /** A table whose type keys are all prepared never raises. */
  lemma PreparedTableNeverFails(t: Table, names: set<string>)
    requires TypeKeysPrepared(t)
    ensures !Clash(t, names)
  {
  }
}
