/**
 * The parts of the websocket library's appliance object that the
 * integration reads.  The library itself (protocol, sessions, encryption)
 * is not part of this model: an appliance is a snapshot of its entities,
 * programs and device info.
 */
module Appliance {
  import opened Wrappers
  import opened Values
  import opened Dicts

  /** The library's access levels that the description tables name. */
  datatype Access = Read | ReadWrite | WriteOnly

  /** An attribute of a library entity: missing (`hasattr` is False), set to
      None, or set to a value. */
  datatype Attr<+T> = Absent | PresentNone | Present(value: T)

  /** One `{key: label}` pair of an entity's enumeration. */
  datatype EnumEntry = EnumEntry(key: int, text: string)

  /** A library entity: a status, setting, event, command or option. */
  datatype HcEntity = HcEntity(
    uid: int,
    name: string,
    value: Value,
    valueRaw: Value,
    enumeration: Option<seq<EnumEntry>>,  // None when the entity has no enum
    access: Attr<Access>,
    available: Attr<bool>,
    min: Attr<int>,
    max: Attr<int>,
    step: Attr<int>)

  datatype HomeAppliance = HomeAppliance(
    entities: Dict<HcEntity>,          // by entity name, in description order
    programs: seq<string>,             // program names, in description order
    selectedProgram: Option<string>,
    activeProgram: Option<string>,
    info: map<string, string>,         // device info: "deviceID", "mac", ...
    connected: bool)                   // the session's connected flag

  /** One `{"uid": ..., "value": ...}` item of a POST to /ro/values. */
  datatype Entry = Entry(uid: int, value: Value)

  /** `if entity.enum:` -- an enumeration that exists and is not empty. */
  predicate HasEnum(e: HcEntity) {
    e.enumeration.Some? && |e.enumeration.value| > 0
  }

  /** `entity.enum.values()` */
  function EnumLabels(en: seq<EnumEntry>): (labels: seq<string>)
    ensures |labels| == |en|
    ensures forall i :: 0 <= i < |en| ==> labels[i] == en[i].text
  {
    seq(|en|, i requires 0 <= i < |en| => en[i].text)
  }

  /** Enumeration keys are dict keys, hence distinct. */
  predicate DistinctKeys(en: seq<EnumEntry>) {
    forall i, j :: 0 <= i < j < |en| ==> en[i].key != en[j].key
  }

  /** `key in entity.enum` */
  predicate HasEnumKey(en: seq<EnumEntry>, key: int) {
    exists i :: 0 <= i < |en| && en[i].key == key
  }
}
