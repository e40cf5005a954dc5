/**
 * Switch entities: the on/off reading of an entity value through an
 * optional `(on, off)` value mapping, the values turning on and off write,
 * and the power switch, whose "off" is "Standby" on appliances that offer
 * it.
 */
module Switch {
  import opened Wrappers
  import opened Values
  import opened Appliance
  import opened Descriptions

  /** `STANDBY_ENUM_VALUE`: the power-state enum key of "Standby". */
  const StandbyEnumValue: int := 3

  /** The mapping `HCPowerSwitch.__init__` chooses from the power entity's
      enumeration. */
  function PowerMapping(en: seq<EnumEntry>): (m: (string, string))
    ensures m.0 == "On"
    ensures m.1 == "Standby" <==> HasEnumKey(en, StandbyEnumValue)
    ensures m.1 == "Off" <==> !HasEnumKey(en, StandbyEnumValue)
  {
    if HasEnumKey(en, StandbyEnumValue) then ("On", "Standby") else ("On", "Off")
  }

  /** `HCSwitch`: the value mapping it was built with. */
  class Switch {
    var mapping: Option<(string, string)>

    /** `HCSwitch.__init__` stores the description's value mapping. */
    constructor (d: Description)
      requires d.SwitchDescription?
      ensures mapping == d.valueMapping
    {
      mapping := d.valueMapping;
    }

    /**
     * `HCPowerSwitch.__init__`: after the plain switch set-up, the mapping
     * becomes ("On", "Standby") or ("On", "Off").  An entity without an
     * enumeration makes `3 in None` raise TypeError.
     */
    static method NewPower(d: Description, e: HcEntity) returns (r: Result<Switch>)
      requires d.SwitchDescription?
      ensures r.Err? <==> e.enumeration.None?
      ensures r.Err? ==> r.error == TypeError
      ensures r.Ok? ==> fresh(r.value) && r.value.mapping == Some(PowerMapping(e.enumeration.value))
    {
      var s := new Switch(d);
      if e.enumeration.None? {
        return Err(TypeError);
      }
      s.mapping := Some(PowerMapping(e.enumeration.value));
      return Ok(s);
    }

    /** `is_on` for an entity whose current value is `v`: with a mapping,
        on when the value equals its first string, else off when it equals
        the second, else unknown; without, the value's truthiness. */
    function IsOn(v: Value): (r: TriState)
      reads this
      ensures mapping.Some? ==> (r == On <==> v == VStr(mapping.value.0))
      ensures mapping.Some? ==> (r == Off <==> v != VStr(mapping.value.0) && v == VStr(mapping.value.1))
      ensures mapping.None? ==> r != Unknown && (r == On <==> Truthy(v))
    {
      if mapping.Some? then
        if v == VStr(mapping.value.0) then On
        else if v == VStr(mapping.value.1) then Off
        else Unknown
      else if Truthy(v) then On else Off
    }

    /** `async_turn_on`: the value written to the entity.  Once the entity
        reports it, the switch reads as on. */
    method TurnOn() returns (sent: Value)
      ensures mapping.Some? ==> sent == VStr(mapping.value.0)
      ensures mapping.None? ==> sent == VBool(true)
      ensures IsOn(sent) == On
    {
      if mapping.Some? {
        sent := VStr(mapping.value.0);
      } else {
        sent := VBool(true);
      }
    }

    /** `async_turn_off`: the value written to the entity.  Once the entity
        reports it, the switch reads as off, unless the mapping's two
        strings coincide, when the first test wins and it reads as on. */
    method TurnOff() returns (sent: Value)
      ensures mapping.Some? ==> sent == VStr(mapping.value.1)
      ensures mapping.None? ==> sent == VBool(false)
      ensures mapping.None? || mapping.value.0 != mapping.value.1 ==> IsOn(sent) == Off
      ensures mapping.Some? && mapping.value.0 == mapping.value.1 ==> IsOn(sent) == On
    {
      if mapping.Some? {
        sent := VStr(mapping.value.1);
      } else {
        sent := VBool(false);
      }
    }
  }

  /** The power switch reads "Standby" as off exactly when the appliance
      offers standby, and "Off" as off otherwise. */
  lemma PowerSwitchOff(en: seq<EnumEntry>, s: Switch)
    requires s.mapping == Some(PowerMapping(en))
    ensures s.IsOn(VStr("On")) == On
    ensures s.IsOn(VStr("Standby")) == (if HasEnumKey(en, StandbyEnumValue) then Off else Unknown)
    ensures s.IsOn(VStr("Off")) == (if HasEnumKey(en, StandbyEnumValue) then Unknown else Off)
  {
  }

  /** An entity the switch platform creates. */
  datatype SwitchEntity = PlainSwitch(description: Description) | PowerSwitch(description: Description)

  /**
   * The platform's entity list: a switch per available description (the
   * filtering helper is not part of this model, so its result is the
   * input), then the power switch when the appliance has the power
   * description's entity.
   */
  function SetupEntities(available: seq<Description>, power: Description, names: set<string>)
    : (r: seq<SwitchEntity>)
    ensures |available| <= |r| <= |available| + 1
    ensures forall i :: 0 <= i < |available| ==> r[i] == PlainSwitch(available[i])
    ensures |r| == |available| + 1 <==> power.entity.Some? && power.entity.value in names
    ensures |r| == |available| + 1 ==> r[|available|] == PowerSwitch(power)
  {
    var plain := seq(|available|, i requires 0 <= i < |available| => PlainSwitch(available[i]));
    if power.entity.Some? && power.entity.value in names then plain + [PowerSwitch(power)] else plain
  }
}
