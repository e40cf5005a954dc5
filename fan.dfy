/**
 * The fan entity: several enum-valued speed entities of the appliance are
 * numbered as one range of fan speeds 1..n, the current raw values are read
 * back as a percentage, and a requested percentage becomes one write
 * message with an entry per speed entity.
 */
module Fan {
  import opened Wrappers
  import opened Values
  import opened Dicts
  import opened Appliance
  import opened Descriptions

  /** `SpeedMapping(entity_name, entity_value, speed)` */
  datatype SpeedMapping = SpeedMapping(entityName: string, entityValue: int, speed: int)

  /** The fields `HCFan.__init__` fills. */
  datatype FanState = FanState(speedEntities: Dict<HcEntity>, mapping: seq<SpeedMapping>, speedCount: nat)

  // ------------------------------------------------ Home Assistant's helpers

  /** `ranged_value_to_percentage((1, n), k)`: `k * 100 // n`. */
  function PercentOf(n: nat, k: int): (p: int)
    requires n > 0
    ensures 1 <= k <= n ==> 0 <= p <= 100
    ensures k == n ==> p == 100
  {
    PercentBounds(n, k);
    k * 100 / n
  }

  lemma PercentBounds(n: nat, k: int)
    requires n > 0
    ensures 1 <= k <= n ==> 0 <= k * 100 / n <= 100
    ensures k == n ==> k * 100 / n == 100
  {
    var q, r := k * 100 / n, k * 100 % n;
    assert k * 100 == n * q + r && 0 <= r < n;
    if 1 <= k <= n {
      if q > 100 {
        MulMono(n, 101, q);
      }
      if q < 0 {
        MulMono(n, q, -1);
      }
    }
    if k == n {
      assert n * 100 == n * q + r;
      if q > 100 {
        MulMono(n, 101, q);
      }
      if q < 100 {
        MulMono(n, q, 99);
      }
    }
  }

  lemma MulMono(a: nat, b: int, c: int)
    requires b <= c
    ensures a * b <= a * c
  {
    assert a * c - a * b == a * (c - b);
  }

  /** `math.ceil(percentage_to_ranged_value((1, n), p))`: the least integer
      not below `n * p / 100`. */
  function SpeedFor(n: nat, p: int): (s: int)
    ensures 100 * (s - 1) < n * p <= 100 * s
  {
    -((-(n * p)) / 100)
  }

  /** A fan of at most 100 speeds: the percentage shown for speed `k` asks
      for speed `k` again. */
  lemma SpeedRoundTrip(n: nat, k: int)
    requires 1 <= k <= n <= 100
    ensures SpeedFor(n, PercentOf(n, k)) == k
  {
    var p := PercentOf(n, k);
    var r := k * 100 % n;
    assert k * 100 == n * p + r && 0 <= r < n;
    assert 100 * (k - 1) < n * p <= 100 * k;
    var s := SpeedFor(n, p);
    assert 100 * (s - 1) < n * p <= 100 * s;
  }

  /** With 200 speeds the lowest one shows as 0 %, which asks for speed 0:
      the round trip needs the bound. */
  lemma SpeedRoundTripBound()
    ensures PercentOf(200, 1) == 0 && SpeedFor(200, PercentOf(200, 1)) == 0
  {
  }

  // ------------------------------------------------------------- __init__

  /** The non-zero keys of an enumeration, in enumeration order. */
  function NonZeroKeys(en: seq<EnumEntry>): (ks: seq<int>)
    ensures forall i :: 0 <= i < |ks| ==> ks[i] != 0
    decreases |en|
  {
    if en == [] then []
    else NonZeroKeys(en[..|en| - 1]) + (if en[|en| - 1].key != 0 then [en[|en| - 1].key] else [])
  }

  /** The first failure of the constructor's loop over `names`: a missing
      entity raises KeyError, an entity without enumeration TypeError. */
  function SetupError(names: seq<string>, ents: map<string, HcEntity>): Option<Error>
    decreases |names|
  {
    if names == [] then None
    else
      var pre := SetupError(names[..|names| - 1], ents);
      var name := names[|names| - 1];
      if pre.Some? then pre
      else if name !in ents then Some(KeyError)
      else if ents[name].enumeration.None? then Some(TypeError)
      else None
  }

  /** The (entity, value) pairs numbered as speeds: each entity's non-zero
      enum keys, entity after entity. */
  function SpeedPairs(names: seq<string>, ents: map<string, HcEntity>): (ps: seq<(string, int)>)
    requires SetupError(names, ents).None?
    ensures forall i :: 0 <= i < |ps| ==> ps[i].1 != 0
    decreases |names|
  {
    if names == [] then []
    else
      var name := names[|names| - 1];
      var ks := NonZeroKeys(ents[name].enumeration.value);
      SpeedPairs(names[..|names| - 1], ents) + Tagged(name, ks)
  }

  /** Each key paired with the entity name. */
  function Tagged(name: string, ks: seq<int>): (ps: seq<(string, int)>)
    ensures |ps| == |ks| && forall j :: 0 <= j < |ks| ==> ps[j] == (name, ks[j])
  {
    seq(|ks|, j requires 0 <= j < |ks| => (name, ks[j]))
  }

  /** `_speed_entities` after the loop: each name bound to its entity. */
  function Stored(names: seq<string>, ents: map<string, HcEntity>): (d: Dict<HcEntity>)
    requires SetupError(names, ents).None?
    ensures Valid(d)
    decreases |names|
  {
    if names == [] then Empty()
    else
      var name := names[|names| - 1];
      Put(Stored(names[..|names| - 1], ents), name, ents[name])
  }

  /** What the constructor establishes and the other members rely on. */
  predicate FanValid(f: FanState) {
    && Valid(f.speedEntities)
    && f.speedCount == |f.mapping|
    && (forall i :: 0 <= i < |f.mapping| ==>
          f.mapping[i].speed == i + 1 && f.mapping[i].entityValue != 0
          && f.mapping[i].entityName in f.speedEntities.values)
  }

  lemma SetupErrorPrefix(names: seq<string>, ents: map<string, HcEntity>, i: nat)
    requires i < |names|
    ensures SetupError(names[..i + 1], ents) ==
      if SetupError(names[..i], ents).Some? then SetupError(names[..i], ents)
      else if names[i] !in ents then Some(KeyError)
      else if ents[names[i]].enumeration.None? then Some(TypeError)
      else None
  {
    assert names[..i + 1][..i] == names[..i];
  }

  lemma {:induction false} SetupErrorMonotone(names: seq<string>, ents: map<string, HcEntity>, i: nat)
    requires i <= |names| && SetupError(names[..i], ents).Some?
    ensures SetupError(names, ents) == SetupError(names[..i], ents)
    decreases |names| - i
  {
    if i < |names| {
      SetupErrorPrefix(names, ents, i);
      SetupErrorMonotone(names, ents, i + 1);
    } else {
      assert names[..i] == names;
    }
  }

  lemma {:induction false} SetupErrorNames(names: seq<string>, ents: map<string, HcEntity>)
    requires SetupError(names, ents).None?
    ensures forall i :: 0 <= i < |names| ==> names[i] in ents && ents[names[i]].enumeration.Some?
    decreases |names|
  {
    if names != [] {
      SetupErrorNames(names[..|names| - 1], ents);
    }
  }

  lemma NonZeroKeysSnoc(en: seq<EnumEntry>, j: nat)
    requires j < |en|
    ensures NonZeroKeys(en[..j + 1]) == NonZeroKeys(en[..j]) + (if en[j].key != 0 then [en[j].key] else [])
  {
    assert en[..j + 1][..j] == en[..j];
  }

  /** The speeds a mapping numbers agree with the pairs: speed `i + 1` is the
      `i`-th pair. */
  predicate Numbered(mapping: seq<SpeedMapping>, ps: seq<(string, int)>) {
    |mapping| == |ps|
    && forall i :: 0 <= i < |ps| ==> mapping[i] == SpeedMapping(ps[i].0, ps[i].1, i + 1)
  }

  lemma NumberedSnoc(mapping: seq<SpeedMapping>, ps: seq<(string, int)>, name: string, key: int)
    requires Numbered(mapping, ps)
    ensures Numbered(mapping + [SpeedMapping(name, key, |mapping| + 1)], ps + [(name, key)])
  {
  }

  lemma TaggedSnoc(name: string, en: seq<EnumEntry>, j: nat)
    requires j < |en|
    ensures Tagged(name, NonZeroKeys(en[..j + 1]))
         == Tagged(name, NonZeroKeys(en[..j])) + (if en[j].key != 0 then [(name, en[j].key)] else [])
  {
    NonZeroKeysSnoc(en, j);
  }

  /** The inner loop of the constructor: one entity's non-zero options
      appended as the next speeds. */
  method AddSpeeds(mapping: seq<SpeedMapping>, ghost ps: seq<(string, int)>, name: string, en: seq<EnumEntry>)
    returns (mapping': seq<SpeedMapping>)
    requires Numbered(mapping, ps)
    ensures Numbered(mapping', ps + Tagged(name, NonZeroKeys(en)))
    ensures forall m :: 0 <= m < |mapping'| && m >= |mapping| ==> mapping'[m].entityName == name
  {
    mapping' := mapping;
    var count := |mapping|;
    for j := 0 to |en|
      invariant count == |mapping'|
      invariant Numbered(mapping', ps + Tagged(name, NonZeroKeys(en[..j])))
      invariant forall m :: 0 <= m < |mapping'| && m >= |mapping| ==> mapping'[m].entityName == name
    {
      TaggedSnoc(name, en, j);
      if en[j].key != 0 {
        NumberedSnoc(mapping', ps + Tagged(name, NonZeroKeys(en[..j])), name, en[j].key);
        assert ps + Tagged(name, NonZeroKeys(en[..j + 1]))
            == ps + Tagged(name, NonZeroKeys(en[..j])) + [(name, en[j].key)];
        count := count + 1;
        mapping' := mapping' + [SpeedMapping(name, en[j].key, count)];
      } else {
        assert Tagged(name, NonZeroKeys(en[..j + 1])) == Tagged(name, NonZeroKeys(en[..j]));
      }
    }
    assert en[..|en|] == en;
  }

  lemma SpeedPairsSnoc(names: seq<string>, ents: map<string, HcEntity>, i: nat)
    requires i < |names| && SetupError(names[..i + 1], ents).None?
    ensures SetupError(names[..i], ents).None?
    ensures names[i] in ents && ents[names[i]].enumeration.Some?
    ensures SpeedPairs(names[..i + 1], ents)
         == SpeedPairs(names[..i], ents) + Tagged(names[i], NonZeroKeys(ents[names[i]].enumeration.value))
    ensures Stored(names[..i + 1], ents) == Put(Stored(names[..i], ents), names[i], ents[names[i]])
  {
    assert names[..i + 1][..i] == names[..i];
  }

  /** What the loop has built after the first `i` names. */
  predicate SetupSoFar(names: seq<string>, ents: map<string, HcEntity>, i: nat,
                       stored: Dict<HcEntity>, mapping: seq<SpeedMapping>)
    requires i <= |names|
  {
    && SetupError(names[..i], ents).None?
    && stored == Stored(names[..i], ents)
    && Numbered(mapping, SpeedPairs(names[..i], ents))
    && (forall m :: 0 <= m < |mapping| ==> mapping[m].entityName in stored.values)
  }

  /** One iteration of the constructor's loop, for `names[i]`. */
  method SpeedStep(names: seq<string>, ents: map<string, HcEntity>, i: nat,
                   stored: Dict<HcEntity>, mapping: seq<SpeedMapping>)
    returns (r: Result<(Dict<HcEntity>, seq<SpeedMapping>)>)
    requires i < |names| && SetupSoFar(names, ents, i, stored, mapping)
    ensures r.Err? <==> SetupError(names[..i + 1], ents).Some?
    ensures r.Err? ==> r.error == SetupError(names[..i + 1], ents).value
    ensures r.Ok? ==> SetupSoFar(names, ents, i + 1, r.value.0, r.value.1)
  {
    SetupErrorPrefix(names, ents, i);
    var name := names[i];
    if name !in ents {
      return Err(KeyError);
    }
    var entity := ents[name];
    if entity.enumeration.None? {
      return Err(TypeError);
    }
    var stored' := Put(stored, name, entity);
    var mapping' := AddSpeeds(mapping, SpeedPairs(names[..i], ents), name, entity.enumeration.value);
    SetupSoFarSnoc(names, ents, i, stored, mapping, mapping');
    return Ok((stored', mapping'));
  }

  lemma SetupSoFarSnoc(names: seq<string>, ents: map<string, HcEntity>, i: nat,
                       stored: Dict<HcEntity>, mapping: seq<SpeedMapping>, mapping': seq<SpeedMapping>)
    requires i < |names| && SetupSoFar(names, ents, i, stored, mapping)
    requires names[i] in ents && ents[names[i]].enumeration.Some?
    requires Numbered(mapping', SpeedPairs(names[..i], ents)
                                + Tagged(names[i], NonZeroKeys(ents[names[i]].enumeration.value)))
    requires forall m :: 0 <= m < |mapping'| && m >= |mapping| ==> mapping'[m].entityName == names[i]
    ensures SetupSoFar(names, ents, i + 1, Put(stored, names[i], ents[names[i]]), mapping')
  {
    SetupErrorPrefix(names, ents, i);
    SpeedPairsSnoc(names, ents, i);
    var stored' := Put(stored, names[i], ents[names[i]]);
    forall m | 0 <= m < |mapping'| ensures mapping'[m].entityName in stored'.values {
      if m < |mapping| {
        assert mapping'[m] == mapping[m];
      }
    }
  }

  /** The fields the constructor's loop produces for the entity names
      `names`, or the error it raises. */
  method SpeedLoop(names: seq<string>, ents: map<string, HcEntity>) returns (r: Result<FanState>)
    ensures r.Err? <==> SetupError(names, ents).Some?
    ensures r.Err? ==> r.error == SetupError(names, ents).value
    ensures r.Ok? ==>
      && SetupError(names, ents).None? && FanValid(r.value)
      && Numbered(r.value.mapping, SpeedPairs(names, ents))
      && r.value.speedEntities == Stored(names, ents)
  {
    var stored := Empty();
    var mapping := [];
    for i := 0 to |names|
      invariant SetupSoFar(names, ents, i, stored, mapping)
    {
      var step := SpeedStep(names, ents, i, stored, mapping);
      if step.Err? {
        SetupErrorMonotone(names, ents, i + 1);
        return Err(step.error);
      }
      stored, mapping := step.value.0, step.value.1;
    }
    assert names[..|names|] == names;
    NumberedNonZero(mapping, SpeedPairs(names, ents));
    return Ok(FanState(stored, mapping, |mapping|));
  }

  lemma NumberedNonZero(mapping: seq<SpeedMapping>, ps: seq<(string, int)>)
    requires Numbered(mapping, ps) && forall i :: 0 <= i < |ps| ==> ps[i].1 != 0
    ensures forall i :: 0 <= i < |mapping| ==> mapping[i].entityValue != 0 && mapping[i].speed == i + 1
  {
  }

  /**
   * `HCFan.__init__`: for each of the description's `entities`, in order,
   * store the appliance entity and number each non-zero enum option as the
   * next speed.  Entities that are missing or have no enumeration raise;
   * so does a description without `entities`.
   */
  method FanSetup(d: Description, a: HomeAppliance) returns (r: Result<FanState>)
    ensures d.entities.None? ==> r == Err(TypeError)
    ensures d.entities.Some? ==> (r.Err? <==> SetupError(d.entities.value, a.entities.values).Some?)
    ensures d.entities.Some? && r.Err? ==> r.error == SetupError(d.entities.value, a.entities.values).value
    ensures r.Ok? ==>
      && d.entities.Some? && SetupError(d.entities.value, a.entities.values).None?
      && FanValid(r.value)
      && Numbered(r.value.mapping, SpeedPairs(d.entities.value, a.entities.values))
      && r.value.speedEntities == Stored(d.entities.value, a.entities.values)
  {
    if d.entities.None? {
      return Err(TypeError);
    }
    r := SpeedLoop(d.entities.value, a.entities.values);
  }

  /** Every speed pair is an entity's non-zero enum key, and every non-zero
      enum key of a listed entity is a speed pair. */
  lemma {:induction false} SpeedPairsMembers(names: seq<string>, ents: map<string, HcEntity>, name: string, key: int)
    requires SetupError(names, ents).None?
    ensures (name, key) in SpeedPairs(names, ents) <==>
      name in names && key != 0 && name in ents && ents[name].enumeration.Some?
      && key in NonZeroKeys(ents[name].enumeration.value)
    decreases |names|
  {
    if names != [] {
      var pre := names[..|names| - 1];
      var last := names[|names| - 1];
      SpeedPairsMembers(pre, ents, name, key);
      assert names == pre + [last];
      var ks := NonZeroKeys(ents[last].enumeration.value);
      var tail := Tagged(last, ks);
      if (name, key) in tail {
        var j :| 0 <= j < |tail| && tail[j] == (name, key);
        assert key == ks[j];
      }
      if name == last && key in ks {
        var j :| 0 <= j < |ks| && ks[j] == key;
        assert tail[j] == (name, key);
      }
    }
  }

  // ----------------------------------------------------------- percentage

  /** Python's `value_raw == entity_value`: a bool equals the int 0 or 1. */
  predicate RawEquals(v: Value, i: int) {
    v == VInt(i) || (v.VBool? && i == (if v.b then 1 else 0))
  }

  predicate Matches(f: FanState, i: nat)
    requires FanValid(f) && i < |f.mapping|
  {
    RawEquals(f.speedEntities.values[f.mapping[i].entityName].valueRaw, f.mapping[i].entityValue)
  }

  /** The first matching mapping from index `i` on. */
  function PercentageFrom(f: FanState, i: nat): (p: int)
    requires FanValid(f) && i <= |f.mapping|
    ensures 0 <= p <= 100
    ensures (forall j :: i <= j < |f.mapping| ==> !Matches(f, j)) ==> p == 0
    ensures forall j :: i <= j < |f.mapping| && Matches(f, j) && (forall m :: i <= m < j ==> !Matches(f, m)) ==>
      p == PercentOf(f.speedCount, j + 1)
    decreases |f.mapping| - i
  {
    if i == |f.mapping| then 0
    else if Matches(f, i) then PercentOf(f.speedCount, f.mapping[i].speed)
    else PercentageFrom(f, i + 1)
  }

  /** `HCFan.percentage`: the percentage of the first speed whose entity
      holds its value, 0 when none does. */
  function Percentage(f: FanState): (p: int)
    requires FanValid(f)
    ensures 0 <= p <= 100
    ensures (forall j :: 0 <= j < |f.mapping| ==> !Matches(f, j)) ==> p == 0
    ensures forall j :: 0 <= j < |f.mapping| && Matches(f, j) && (forall m :: 0 <= m < j ==> !Matches(f, m)) ==>
      p == PercentOf(f.speedCount, j + 1)
  {
    PercentageFrom(f, 0)
  }

  // ------------------------------------------------- async_set_percentage

  /** The last mapping with speed `s`. */
  function LastWithSpeed(mapping: seq<SpeedMapping>, s: int): (m: Option<SpeedMapping>)
    ensures m.Some? ==> m.value in mapping && m.value.speed == s
    ensures m.None? <==> forall i :: 0 <= i < |mapping| ==> mapping[i].speed != s
    decreases |mapping|
  {
    if mapping == [] then None
    else if mapping[|mapping| - 1].speed == s then Some(mapping[|mapping| - 1])
    else LastWithSpeed(mapping[..|mapping| - 1], s)
  }

  /** `{"uid": entity.uid, "value": ...}` for one stored speed entity. */
  function SpeedEntry(e: HcEntity, target: Option<SpeedMapping>): Entry {
    if target.Some? && e.name == target.value.entityName then Entry(e.uid, VInt(target.value.entityValue))
    else Entry(e.uid, VInt(0))
  }

  /** The message data: one entry per stored speed entity, in order. */
  function SpeedMessage(f: FanState, target: Option<SpeedMapping>): (data: seq<Entry>)
    requires Valid(f.speedEntities)
    ensures |data| == |f.speedEntities.keys|
    ensures forall j :: 0 <= j < |data| ==>
      data[j] == SpeedEntry(f.speedEntities.values[f.speedEntities.keys[j]], target)
  {
    var ks := f.speedEntities.keys;
    seq(|ks|, j requires 0 <= j < |ks| => SpeedEntry(f.speedEntities.values[ks[j]], target))
  }

  /** The message is sent when the speed is 0 or some mapping has it under
      a non-empty entity name; otherwise the call is rejected. */
  predicate Sendable(target: Option<SpeedMapping>, s: int) {
    (target.Some? && target.value.entityName != "") || s == 0
  }

  lemma LastWithSpeedSnoc(mapping: seq<SpeedMapping>, i: nat, s: int)
    requires i < |mapping|
    ensures LastWithSpeed(mapping[..i + 1], s) ==
      if mapping[i].speed == s then Some(mapping[i]) else LastWithSpeed(mapping[..i], s)
  {
    assert mapping[..i + 1][..i] == mapping[..i];
  }

  /**
   * `HCFan.async_set_percentage(p)`: the data of the POST to /ro/values it
   * sends, or ServiceValidationError when no speed matches.
   */
  method SetPercentage(f: FanState, p: int) returns (r: Result<seq<Entry>>)
    requires Valid(f.speedEntities)
    ensures var target := LastWithSpeed(f.mapping, SpeedFor(f.speedCount, p));
      && (r.Ok? <==> Sendable(target, SpeedFor(f.speedCount, p)))
      && (r.Ok? ==> r.value == SpeedMessage(f, target))
      && (r.Err? ==> r.error == ServiceValidationError)
  {
    var newSpeed := SpeedFor(f.speedCount, p);
    var target: Option<SpeedMapping> := None;
    for i := 0 to |f.mapping|
      invariant target == LastWithSpeed(f.mapping[..i], newSpeed)
    {
      LastWithSpeedSnoc(f.mapping, i, newSpeed);
      if f.mapping[i].speed == newSpeed {
        target := Some(f.mapping[i]);
      }
    }
    assert f.mapping[..|f.mapping|] == f.mapping;
    if (target.Some? && target.value.entityName != "") || newSpeed == 0 {
      var data := [];
      for j := 0 to |f.speedEntities.keys|
        invariant |data| == j
        invariant forall m :: 0 <= m < j ==> data[m] == SpeedEntry(f.speedEntities.values[f.speedEntities.keys[m]], target)
      {
        var entity := f.speedEntities.values[f.speedEntities.keys[j]];
        if target.Some? && entity.name == target.value.entityName {
          data := data + [Entry(entity.uid, VInt(target.value.entityValue))];
        } else {
          data := data + [Entry(entity.uid, VInt(0))];
        }
      }
      return Ok(data);
    }
    return Err(ServiceValidationError);
  }

  // ------------------------------------------------------------ properties

  /** The library keeps each entity under its own name. */
  predicate NamedByKey(d: Dict<HcEntity>) {
    forall k :: k in d.values ==> d.values[k].name == k
  }

  /** In a fan the constructor built, speed `k` belongs to mapping `k - 1`. */
  lemma {:induction false} LastWithSpeedNumbered(mapping: seq<SpeedMapping>, k: int)
    requires forall i :: 0 <= i < |mapping| ==> mapping[i].speed == i + 1
    requires 1 <= k <= |mapping|
    ensures LastWithSpeed(mapping, k) == Some(mapping[k - 1])
    decreases |mapping|
  {
    if k < |mapping| {
      LastWithSpeedNumbered(mapping[..|mapping| - 1], k);
    }
  }

  /** The message writes the target's value to the entity named by the
      target, 0 to every other speed entity; at most one entry is non-zero. */
  lemma MessageTargets(f: FanState, m: SpeedMapping)
    requires FanValid(f) && NamedByKey(f.speedEntities) && m in f.mapping
    ensures var data := SpeedMessage(f, Some(m));
      forall j :: 0 <= j < |data| ==>
        data[j].value == (if f.speedEntities.keys[j] == m.entityName then VInt(m.entityValue) else VInt(0))
    ensures var data := SpeedMessage(f, Some(m));
      forall i, j :: 0 <= i < j < |data| ==> data[i].value == VInt(0) || data[j].value == VInt(0)
  {
    var ks := f.speedEntities.keys;
    assert forall j :: 0 <= j < |ks| ==> ks[j] in f.speedEntities.values;
  }

  /** Speed 0 (a request that rounds up to nothing) is always sent and
      writes 0 to every speed entity. */
  lemma ZeroSpeedStops(f: FanState, p: int)
    requires FanValid(f) && SpeedFor(f.speedCount, p) == 0
    ensures var target := LastWithSpeed(f.mapping, 0);
      Sendable(target, 0) && forall j :: 0 <= j < |SpeedMessage(f, target)| ==> SpeedMessage(f, target)[j].value == VInt(0)
  {
    assert LastWithSpeed(f.mapping, 0).None?;
  }

  /** A fan of at most 100 speeds: setting the percentage it shows for speed
      `k` writes speed `k`'s value to speed `k`'s entity and 0 elsewhere. */
  lemma PercentageRoundTrip(f: FanState, k: int)
    requires FanValid(f) && 1 <= k <= f.speedCount <= 100
    ensures var target := LastWithSpeed(f.mapping, SpeedFor(f.speedCount, PercentOf(f.speedCount, k)));
      target == Some(f.mapping[k - 1]) && (f.mapping[k - 1].entityName != "" ==> Sendable(target, k))
  {
    SpeedRoundTrip(f.speedCount, k);
    LastWithSpeedNumbered(f.mapping, k);
  }
}
