/**
 * Diagnostics: the keys redacted from the configuration entry and the
 * per-entity snapshot of the appliance's state.
 */
module Diagnostics {
  import opened Wrappers
  import opened Values
  import opened Dicts
  import opened Appliance

  /** `TO_REDACT`: the pre-shared key, the AES IV, Home Assistant's
      `device_id` and four device-info keys. */
  const ToRedact: seq<string> := ["psk", "aes_iv", "device_id", "serialNumber", "deviceID", "shipSki", "mac"]

  /** The secrets the connection uses and the device's identifiers are all
      redacted. */
  lemma RedactsSecrets()
    ensures |ToRedact| == 7
    ensures forall k :: k in ["psk", "aes_iv"] ==> k in ToRedact
    ensures forall k :: k in ["device_id", "serialNumber", "deviceID", "shipSki", "mac"] ==> k in ToRedact
    ensures "uid" !in ToRedact && "name" !in ToRedact
  {
  }

  /**
   * One entity's `entity_state`.  The five base keys are always there;
   * `access` and `available` are there when the entity has the attribute
   * (`Absent` means the key is missing, `PresentNone` that it holds None);
   * `min`, `max` and `step` are there when the attribute is present and
   * not None.
   */
  datatype EntityState = EntityState(
    name: string,
    uid: int,
    value: Value,
    valueRaw: Value,
    enumeration: Option<seq<EnumEntry>>,
    access: Attr<Access>,
    available: Attr<bool>,
    min: Option<int>,
    max: Option<int>,
    step: Option<int>)

  /** The keys an `entity_state` can have. */
  datatype Key = NameKey | UidKey | ValueKey | ValueRawKey | EnumKey
               | AccessKey | AvailableKey | MinKey | MaxKey | StepKey

  /** The key as the dict spells it. */
  function KeyString(k: Key): string {
    match k
    case NameKey => "name"
    case UidKey => "uid"
    case ValueKey => "value"
    case ValueRawKey => "value_raw"
    case EnumKey => "enum"
    case AccessKey => "access"
    case AvailableKey => "available"
    case MinKey => "min"
    case MaxKey => "max"
    case StepKey => "step"
  }

  /** The five keys every snapshot starts with. */
  const BaseKeys: seq<Key> := [NameKey, UidKey, ValueKey, ValueRawKey, EnumKey]

  /** `ks` with `k` appended when `cond` holds. */
  function AddIf(ks: seq<Key>, cond: bool, k: Key): (r: seq<Key>)
    ensures |r| >= |ks| && r[..|ks|] == ks
    ensures forall x :: x in r <==> x in ks || (cond && x == k)
  {
    if cond then ks + [k] else ks
  }

  /** Whether the serialised `entity_state` of `s` has key `k`: the five
      base keys always; `access` and `available` when the entity has the
      attribute; `min`, `max` and `step` when present and not None. */
  predicate Shown(s: EntityState, k: Key) {
    match k
    case AccessKey => !s.access.Absent?
    case AvailableKey => !s.available.Absent?
    case MinKey => s.min.Some?
    case MaxKey => s.max.Some?
    case StepKey => s.step.Some?
    case _ => true
  }

  /** The keys of the serialised `entity_state`, in insertion order. */
  function KeysOf(s: EntityState): (ks: seq<Key>)
    ensures |ks| >= 5 && ks[..5] == BaseKeys
    ensures forall k :: k in ks <==> Shown(s, k)
  {
    var k1 := AddIf(BaseKeys, !s.access.Absent?, AccessKey);
    var k2 := AddIf(k1, !s.available.Absent?, AvailableKey);
    var k3 := AddIf(k2, s.min.Some?, MinKey);
    var k4 := AddIf(k3, s.max.Some?, MaxKey);
    assert forall x :: x in BaseKeys <==> x in {NameKey, UidKey, ValueKey, ValueRawKey, EnumKey};
    AddIf(k4, s.step.Some?, StepKey)
  }

  /** `attr if hasattr(entity, attr) and attr is not None`. */
  function PresentValue(a: Attr<int>): (r: Option<int>)
    ensures r.Some? <==> a.Present?
    ensures r.Some? ==> r.value == a.value
  {
    if a.Present? then Some(a.value) else None
  }

  /** The snapshot of one entity, as the loop body builds it. */
  function SnapshotOf(e: HcEntity): (s: EntityState)
    ensures s.name == e.name && s.uid == e.uid && s.value == e.value && s.valueRaw == e.valueRaw
    ensures s.enumeration == e.enumeration && s.access == e.access && s.available == e.available
    ensures s.min == PresentValue(e.min) && s.max == PresentValue(e.max) && s.step == PresentValue(e.step)
  {
    EntityState(e.name, e.uid, e.value, e.valueRaw, e.enumeration, e.access, e.available,
                PresentValue(e.min), PresentValue(e.max), PresentValue(e.step))
  }

  /** A bound key appears exactly when the entity has the bound and it is
      not None, and then it carries that bound. */
  lemma BoundsShown(e: HcEntity)
    ensures MinKey in KeysOf(SnapshotOf(e)) <==> e.min.Present?
    ensures MaxKey in KeysOf(SnapshotOf(e)) <==> e.max.Present?
    ensures StepKey in KeysOf(SnapshotOf(e)) <==> e.step.Present?
    ensures e.min.Present? ==> SnapshotOf(e).min == Some(e.min.value)
  {
  }

  /** `appliance.entities.values()`, in insertion order. */
  function EntityList(d: Dict<HcEntity>): (es: seq<HcEntity>)
    requires Valid(d)
    ensures |es| == |d.keys|
    ensures forall i :: 0 <= i < |d.keys| ==> es[i] == d.values[d.keys[i]]
  {
    seq(|d.keys|, i requires 0 <= i < |d.keys| => d.values[d.keys[i]])
  }

  /** The snapshots of the first entities, each stored under the entity's
      name, a later entity replacing an earlier one of the same name. */
  function StateFor(es: seq<HcEntity>): (r: Dict<EntityState>)
    ensures Valid(r)
    decreases |es|
  {
    if es == [] then Empty()
    else
      var last := es[|es| - 1];
      Put(StateFor(es[..|es| - 1]), last.name, SnapshotOf(last))
  }

  lemma StateForSnoc(es: seq<HcEntity>, i: nat)
    requires i < |es|
    ensures StateFor(es[..i + 1]) == Put(StateFor(es[..i]), es[i].name, SnapshotOf(es[i]))
  {
    assert es[..i + 1][..i] == es[..i];
  }

  /** `get_appliance_state`: the loop over the appliance's entities. */
  method GetApplianceState(a: HomeAppliance) returns (state: Dict<EntityState>)
    requires Valid(a.entities)
    ensures state == StateFor(EntityList(a.entities))
  {
    var es := EntityList(a.entities);
    state := Empty();
    for i := 0 to |a.entities.keys|
      invariant state == StateFor(es[..i])
    {
      var e := a.entities.values[a.entities.keys[i]];
      assert e == es[i];
      var entityState := EntityState(e.name, e.uid, e.value, e.valueRaw, e.enumeration,
                                     Absent, Absent, None, None, None);
      if !e.access.Absent? {
        entityState := entityState.(access := e.access);
      }
      if !e.available.Absent? {
        entityState := entityState.(available := e.available);
      }
      if e.min.Present? {
        entityState := entityState.(min := Some(e.min.value));
      }
      if e.max.Present? {
        entityState := entityState.(max := Some(e.max.value));
      }
      if e.step.Present? {
        entityState := entityState.(step := Some(e.step.value));
      }
      StateForSnoc(es, i);
      state := Put(state, e.name, entityState);
    }
    assert es[..|es|] == es;
  }

  /** The index of the last entity named `n`, if any. */
  function LastNamed(es: seq<HcEntity>, n: string): (i: Option<nat>)
    ensures i.Some? ==> i.value < |es| && es[i.value].name == n
    ensures i.Some? ==> forall j :: i.value < j < |es| ==> es[j].name != n
    ensures i.None? ==> forall j :: 0 <= j < |es| ==> es[j].name != n
    decreases |es|
  {
    if es == [] then None
    else if es[|es| - 1].name == n then Some(|es| - 1)
    else LastNamed(es[..|es| - 1], n)
  }

  /** The snapshot has one entry per entity name; each holds the snapshot
      of the last entity with that name. */
  lemma {:induction false} StateForEntries(es: seq<HcEntity>, n: string)
    ensures n in StateFor(es).values <==> LastNamed(es, n).Some?
    ensures n in StateFor(es).values ==> StateFor(es).values[n] == SnapshotOf(es[LastNamed(es, n).value])
    decreases |es|
  {
    if es != [] {
      var pre := es[..|es| - 1];
      StateForEntries(pre, n);
      if es[|es| - 1].name != n {
        var l := LastNamed(pre, n);
        if l.Some? {
          assert pre[l.value] == es[l.value];
        }
      }
    }
  }

  /** The snapshot's keys are the entity names in first-seen order, so an
      appliance whose entity names are distinct gets one entry per entity,
      in entity order. */
  lemma {:induction false} StateForKeys(es: seq<HcEntity>)
    requires forall i, j :: 0 <= i < j < |es| ==> es[i].name != es[j].name
    ensures |StateFor(es).keys| == |es|
    ensures forall i :: 0 <= i < |es| ==> StateFor(es).keys[i] == es[i].name
    decreases |es|
  {
    if es != [] {
      var pre := es[..|es| - 1];
      StateForKeys(pre);
      var last := es[|es| - 1];
      forall k | 0 <= k < |pre| ensures StateFor(pre).keys[k] != last.name {
        assert pre[k] == es[k];
      }
      assert last.name !in StateFor(pre).keys;
    }
  }
}
