/**
 * The entity description classes: one constructor per description class,
 * with the class's field defaults as the constructor's default arguments,
 * so that a table entry written with named arguments reads like the
 * Python dataclass call it models.  Only the fields the integration or
 * the tables use are kept; display names and icons are not.
 */
module Descriptions {
  import opened Wrappers
  import opened Appliance
  import opened Strings

  datatype DeviceClass = Door | Problem | Connectivity | Duration | EnumClass | SwitchClass | Volume
  datatype StateClass = Measurement | TotalIncreasing
  datatype EntityCategory = Config | Diagnostic
  datatype Unit = Seconds | Hours | Percentage | Milliliters
  datatype NumberMode = Box

  /**
   * `value_on` / `value_off`: a set of strings, or -- where a table writes
   * `("Poor")`, which Python reads as a parenthesised string and not as a
   * tuple -- a plain string.
   */
  datatype ValueSet = Members(members: set<string>) | Text(text: string)

  /** One `ExtraAttributeDict`: the attribute name, the entity it reads and,
      when it has a `value_fn`, the key that function reads from the value. */
  datatype ExtraAttribute = ExtraAttribute(name: string, entity: string, field: Option<string>)

  const ReadAccess: seq<Access> := [Read, ReadWrite]
  const WriteAccess: seq<Access> := [ReadWrite, WriteOnly]

  datatype Description =
    | BinarySensorDescription(
        key: string,
        entity: Option<string> := None,
        entities: Option<seq<string>> := None,
        availableAccess: Option<seq<Access>> := Some(ReadAccess),
        extraAttributes: Option<seq<ExtraAttribute>> := None,
        deviceClass: Option<DeviceClass> := None,
        entityCategory: Option<EntityCategory> := None,
        enabledByDefault: bool := true,
        valueOn: Option<ValueSet> := None,
        valueOff: Option<ValueSet> := None)
    | SensorDescription(
        key: string,
        entity: Option<string> := None,
        entities: Option<seq<string>> := None,
        availableAccess: Option<seq<Access>> := Some(ReadAccess),
        extraAttributes: Option<seq<ExtraAttribute>> := None,
        deviceClass: Option<DeviceClass> := None,
        entityCategory: Option<EntityCategory> := None,
        enabledByDefault: bool := true,
        hasStateTranslation: bool := false,
        options: Option<seq<string>> := None,
        stateClass: Option<StateClass> := None,
        nativeUnit: Option<Unit> := None,
        suggestedUnit: Option<Unit> := None)
    | SwitchDescription(
        key: string,
        entity: Option<string> := None,
        entities: Option<seq<string>> := None,
        availableAccess: Option<seq<Access>> := Some(WriteAccess),
        extraAttributes: Option<seq<ExtraAttribute>> := None,
        deviceClass: Option<DeviceClass> := None,
        entityCategory: Option<EntityCategory> := None,
        enabledByDefault: bool := true,
        valueMapping: Option<(string, string)> := None)
    | SelectDescription(
        key: string,
        entity: Option<string> := None,
        entities: Option<seq<string>> := None,
        availableAccess: Option<seq<Access>> := Some(WriteAccess),
        extraAttributes: Option<seq<ExtraAttribute>> := None,
        deviceClass: Option<DeviceClass> := None,
        entityCategory: Option<EntityCategory> := None,
        enabledByDefault: bool := true,
        hasStateTranslation: bool := false,
        options: Option<seq<string>> := None)
    | ButtonDescription(
        key: string,
        entity: Option<string> := None,
        entities: Option<seq<string>> := None,
        availableAccess: Option<seq<Access>> := Some(WriteAccess),
        extraAttributes: Option<seq<ExtraAttribute>> := None,
        deviceClass: Option<DeviceClass> := None,
        entityCategory: Option<EntityCategory> := None,
        enabledByDefault: bool := true)
    | NumberDescription(
        key: string,
        entity: Option<string> := None,
        entities: Option<seq<string>> := None,
        availableAccess: Option<seq<Access>> := Some(WriteAccess),
        extraAttributes: Option<seq<ExtraAttribute>> := None,
        deviceClass: Option<DeviceClass> := None,
        entityCategory: Option<EntityCategory> := None,
        enabledByDefault: bool := true,
        nativeUnit: Option<Unit> := None,
        mode: Option<NumberMode> := None)
    | FanDescription(
        // the fan and light description classes are not defined in the
        // modelled sources; they carry the base class's defaults
        key: string,
        entity: Option<string> := None,
        entities: Option<seq<string>> := None,
        availableAccess: Option<seq<Access>> := None,
        extraAttributes: Option<seq<ExtraAttribute>> := None)
    | LightDescription(
        key: string,
        entity: Option<string> := None,
        entities: Option<seq<string>> := None,
        availableAccess: Option<seq<Access>> := None,
        extraAttributes: Option<seq<ExtraAttribute>> := None,
        brightnessEntity: Option<string> := None,
        colorTemperatureEntity: Option<string> := None)

  /** Sets exactly one of `entity` and `entities`. */
  predicate BindsOne(d: Description) {
    d.entity.Some? != d.entities.Some?
  }

  /** The `entity` followed by the `entities` of a description, as
      `get_available_entities` collects them: a falsy (empty) `entity` is
      skipped. */
  function Subscribed(d: Description): (names: seq<string>)
    ensures d.entity.None? && d.entities.None? ==> names == []
    ensures d.entity.Some? && d.entity.value != "" ==> |names| >= 1 && names[0] == d.entity.value
  {
    (if d.entity.Some? && d.entity.value != "" then [d.entity.value] else [])
    + (if d.entities.Some? then d.entities.value else [])
  }

  /** The subscribed names end with the whole `entities` list. */
  lemma SubscribedEndsWithEntities(d: Description)
    requires d.entities.Some?
    ensures var names := Subscribed(d);
      |names| >= |d.entities.value| && names[|names| - |d.entities.value|..] == d.entities.value
  {
  }

  /** No name is subscribed but the non-empty `entity` and the `entities`. */
  lemma SubscribedMembers(d: Description, n: string)
    ensures n in Subscribed(d) <==>
      (d.entity == Some(n) && n != "") || (d.entities.Some? && n in d.entities.value)
  {
  }

  /** `value_on` and `value_off` keep each other's values apart: two sets
      share no member; for two strings, where `in` tests substrings, the
      `value_off` text does not occur inside the `value_on` text, so that
      text itself reads as off (shorter pieces may still read as both). */
  predicate OnOffSeparated(d: Description)
    requires d.BinarySensorDescription?
  {
    match (d.valueOn, d.valueOff)
    case (Some(Members(on)), Some(Members(off))) => on !! off
    case (Some(Text(on)), Some(Text(off))) => !IsSubstring(off, on)
    case (None, _) => true
    case _ => false
  }

  /** A description table: type keys (`"binary_sensor"`, `"select"`, ...)
      with their description lists, in the table's order. */
  type Table = seq<(string, seq<Description>)>

  predicate DistinctTypeKeys(t: Table) {
    forall i, j :: 0 <= i < j < |t| ==> t[i].0 != t[j].0
  }

  predicate TypeKeysPrepared(t: Table) {
    forall i :: 0 <= i < |t| ==> t[i].0 in PreparedKeys
  }

  predicate AllBindOne(ds: seq<Description>) {
    forall j :: 0 <= j < |ds| ==> BindsOne(ds[j])
  }

  predicate AllBindEntity(ds: seq<Description>) {
    forall j :: 0 <= j < |ds| ==> ds[j].entity.Some? && ds[j].entities.None?
  }

  predicate AllOnOffSeparated(ds: seq<Description>) {
    forall j :: 0 <= j < |ds| && ds[j].BinarySensorDescription? ==> OnOffSeparated(ds[j])
  }

  /** An event sensor lists one option per event entity plus a final
      fallback option for "no event present". */
  predicate HasFallbackOption(d: Description) {
    d.SensorDescription? && d.entities.Some? && d.options.Some?
    && |d.options.value| == |d.entities.value| + 1
  }

  predicate AllHaveFallback(ds: seq<Description>) {
    forall j :: 0 <= j < |ds| ==> HasFallbackOption(ds[j])
  }

  /** Every list of the table satisfies `P`. */
  predicate EveryList(t: Table, P: seq<Description> -> bool) {
    forall i :: 0 <= i < |t| ==> P(t[i].1)
  }

  /** The type keys `get_available_entities` prepares, in its order. */
  const PreparedKeys: seq<string> := [
    "abort_button", "active_program", "binary_sensor", "event_sensor", "number",
    "power_switch", "program", "select", "sensor", "start_button", "start_in", "switch"]

  /** The keys of the `EntityDescriptions` TypedDict. */
  const TypedDictKeys: seq<string> := [
    "abort_button", "active_program", "binary_sensor", "event_sensor", "number",
    "program", "select", "sensor", "start_button", "start_in", "switch"]

  /** Field defaults of the description classes. */
  lemma ClassDefaults(key: string)
    ensures var b := BinarySensorDescription(key);
      b.entity == None && b.entities == None && b.extraAttributes == None
      && b.availableAccess == Some([Read, ReadWrite])
      && b.valueOn == None && b.valueOff == None
    ensures var s := SensorDescription(key);
      s.availableAccess == Some([Read, ReadWrite]) && !s.hasStateTranslation
    ensures var w := SwitchDescription(key);
      w.availableAccess == Some([ReadWrite, WriteOnly]) && w.valueMapping == None
    ensures var s := SelectDescription(key);
      s.availableAccess == Some([ReadWrite, WriteOnly]) && !s.hasStateTranslation
    ensures ButtonDescription(key).availableAccess == Some([ReadWrite, WriteOnly])
    ensures NumberDescription(key).availableAccess == Some([ReadWrite, WriteOnly])
    ensures FanDescription(key).availableAccess == None
  {
  }

  /** The TypedDict declares eleven keys, lacking only `power_switch`, which
      `get_available_entities` prepares as well. */
  lemma TypedDictLacksPowerSwitch()
    ensures |TypedDictKeys| == 11 && |PreparedKeys| == 12
    ensures "power_switch" !in TypedDictKeys && "power_switch" in PreparedKeys
    ensures forall k :: k in TypedDictKeys ==> k in PreparedKeys
    ensures forall k :: k in PreparedKeys && k != "power_switch" ==> k in TypedDictKeys
  {
  }
}
